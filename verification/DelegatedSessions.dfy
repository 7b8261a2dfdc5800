/** The bounded breadth-first walk over delegated sessions, one query per level. */
module DelegatedSessions {

  type SessionId = nat

  /** Executions in the order every query returns them; an item is named by its place in that order. */
  datatype Execution = Execution(session: SessionId, parent: SessionId, visible: bool)

  type Executions = seq<Execution>

  // ------------------------------------------------------------------ one level

  predicate Matches(rows: Executions, parents: set<SessionId>, i: nat) {
    i < |rows| && rows[i].visible && rows[i].parent in parents
  }

  /** The visible executions under `parents` among the first `n`, in order. */
  function Under(rows: Executions, parents: set<SessionId>, n: nat): (items: seq<nat>)
    requires n <= |rows|
    ensures forall k :: 0 <= k < |items| ==> items[k] < n
  {
    if n == 0 then []
    else Under(rows, parents, n - 1) + if Matches(rows, parents, n - 1) then [n - 1] else []
  }

  lemma {:induction false} UnderIs(rows: Executions, parents: set<SessionId>, n: nat)
    requires n <= |rows|
    ensures forall i: nat :: i in Under(rows, parents, n) <==> i < n && Matches(rows, parents, i)
    ensures forall j, k :: 0 <= j < k < |Under(rows, parents, n)| ==> Under(rows, parents, n)[j] < Under(rows, parents, n)[k]
  {
    if n > 0 {
      UnderIs(rows, parents, n - 1);
    }
    hide Matches;
  }

  /** The one-level query: at most `maximum` items, and whether there were more. */
  function LoadLevel(rows: Executions, parents: set<SessionId>, maximum: nat): (seq<nat>, bool) {
    var all := Under(rows, parents, |rows|);
    if |all| > maximum then (all[..maximum], true) else (all, false)
  }

  // ------------------------------------------------------------------ reachability

  /** A chain of visible executions, the first under a root and each under the session of the one before. */
  ghost predicate Chain(rows: Executions, roots: set<SessionId>, chain: seq<nat>) {
    && chain != []
    && (forall k :: 0 <= k < |chain| ==> chain[k] < |rows| && rows[chain[k]].visible)
    && rows[chain[0]].parent in roots
    && (forall k :: 0 < k < |chain| ==> rows[chain[k]].parent == rows[chain[k - 1]].session)
  }

  ghost predicate Reachable(rows: Executions, roots: set<SessionId>, i: nat) {
    exists chain :: Chain(rows, roots, chain) && chain[|chain| - 1] == i
  }

  lemma ReachRoot(rows: Executions, roots: set<SessionId>, i: nat)
    requires i < |rows| && rows[i].visible && rows[i].parent in roots
    ensures Reachable(rows, roots, i)
  {
    assert Chain(rows, roots, [i]);
  }

  lemma ReachStep(rows: Executions, roots: set<SessionId>, i: nat, j: nat)
    requires Reachable(rows, roots, i) && i < |rows| && j < |rows| && rows[j].visible
    requires rows[j].parent == rows[i].session
    ensures Reachable(rows, roots, j)
  {
    var chain :| Chain(rows, roots, chain) && chain[|chain| - 1] == i;
    assert Chain(rows, roots, chain + [j]);
  }

  // ------------------------------------------------------------------ the walk

  /** Nothing is listed before what it hangs from. */
  ghost predicate ParentFirst(rows: Executions, roots: set<SessionId>, items: seq<nat>) {
    forall k :: 0 <= k < |items| ==>
      items[k] < |rows| && (rows[items[k]].parent in roots || Sessions(rows, items[..k], rows[items[k]].parent))
  }

  /** `s` is the session of one of the items. */
  ghost predicate Sessions(rows: Executions, items: seq<nat>, s: SessionId) {
    exists k :: 0 <= k < |items| && items[k] < |rows| && rows[items[k]].session == s
  }

  ghost predicate Distinct(items: seq<nat>) {
    forall j, k :: 0 <= j < k < |items| ==> items[j] != items[k]
  }

  ghost predicate AllReachable(rows: Executions, roots: set<SessionId>, items: seq<nat>) {
    forall k :: 0 <= k < |items| ==> items[k] < |rows| && rows[items[k]].visible && Reachable(rows, roots, items[k])
  }

  /** Every known parent is a root or the session of a listed item. */
  ghost predicate Known(rows: Executions, roots: set<SessionId>, items: seq<nat>, parents: set<SessionId>) {
    forall s :: s in parents ==> s in roots || Sessions(rows, items, s)
  }

  /** Exactly the visible executions under the loaded parents are listed. */
  ghost predicate Loaded(rows: Executions, items: seq<nat>, loaded: set<SessionId>) {
    forall i :: i in items <==> Matches(rows, loaded, i)
  }

  /** The sessions that the items name are loaded or waiting to be. */
  ghost predicate Frontier(rows: Executions, items: seq<nat>, known: set<SessionId>) {
    forall k :: 0 <= k < |items| && items[k] < |rows| ==> rows[items[k]].session in known
  }

  function SessionsOf(rows: Executions, items: seq<nat>): set<SessionId> {
    set k | 0 <= k < |items| && items[k] < |rows| :: rows[items[k]].session
  }

  /** What holds whenever another level is about to be loaded. */
  ghost predicate Walking(rows: Executions, roots: set<SessionId>, items: seq<nat>, loaded: set<SessionId>,
                          pending: set<SessionId>) {
    && Distinct(items) && ParentFirst(rows, roots, items) && AllReachable(rows, roots, items)
    && Loaded(rows, items, loaded) && Frontier(rows, items, loaded + pending) && roots <= loaded + pending
    && Known(rows, roots, items, loaded + pending)
  }

  lemma SessionsGrow(rows: Executions, items: seq<nat>, more: seq<nat>, s: SessionId)
    requires Sessions(rows, items, s)
    ensures Sessions(rows, items + more, s)
  {
    var k :| 0 <= k < |items| && items[k] < |rows| && rows[items[k]].session == s;
    assert (items + more)[k] == items[k];
  }

  /** A level that was loaded under known parents, after which the parents count as loaded. */
  ghost predicate Level(rows: Executions, parents: set<SessionId>, level: seq<nat>) {
    && (forall k :: 0 <= k < |level| ==> Matches(rows, parents, level[k]))
    && (forall j, k :: 0 <= j < k < |level| ==> level[j] < level[k])
  }

  lemma LevelDistinct(rows: Executions, items: seq<nat>, loaded: set<SessionId>, parents: set<SessionId>,
                      level: seq<nat>)
    requires Distinct(items) && Loaded(rows, items, loaded) && Level(rows, parents, level) && loaded !! parents
    ensures Distinct(items + level)
  {
    var all := items + level;
    forall j, k | 0 <= j < k < |all|
      ensures all[j] != all[k]
    {
      if j < |items| <= k {
        assert all[j] in items && Matches(rows, parents, level[k - |items|]);
      }
    }
  }

  lemma LevelParentFirst(rows: Executions, roots: set<SessionId>, items: seq<nat>, known: set<SessionId>,
                         parents: set<SessionId>, level: seq<nat>)
    requires ParentFirst(rows, roots, items) && Known(rows, roots, items, known) && parents <= known
    requires Level(rows, parents, level)
    ensures ParentFirst(rows, roots, items + level)
  {
    var all := items + level;
    hide Sessions;
    forall k | 0 <= k < |all|
      ensures all[k] < |rows| && (rows[all[k]].parent in roots || Sessions(rows, all[..k], rows[all[k]].parent))
    {
      if k < |items| {
        assert all[..k] == items[..k];
      } else {
        assert Matches(rows, parents, level[k - |items|]);
        var p := rows[all[k]].parent;
        if p !in roots {
          SessionsGrow(rows, items, level[..k - |items|], p);
          assert items + level[..k - |items|] == all[..k];
        }
      }
    }
  }

  lemma LevelReachable(rows: Executions, roots: set<SessionId>, items: seq<nat>, known: set<SessionId>,
                       parents: set<SessionId>, level: seq<nat>)
    requires AllReachable(rows, roots, items) && Known(rows, roots, items, known) && parents <= known
    requires Level(rows, parents, level)
    ensures AllReachable(rows, roots, items + level)
  {
    hide Reachable;
    forall k | 0 <= k < |level|
      ensures level[k] < |rows| && rows[level[k]].visible && Reachable(rows, roots, level[k])
    {
      assert Matches(rows, parents, level[k]);
      var p := rows[level[k]].parent;
      if p in roots {
        ReachRoot(rows, roots, level[k]);
      } else {
        var m :| 0 <= m < |items| && items[m] < |rows| && rows[items[m]].session == p;
        ReachStep(rows, roots, items[m], level[k]);
      }
    }
  }

  lemma LevelLoaded(rows: Executions, items: seq<nat>, loaded: set<SessionId>, parents: set<SessionId>, level: seq<nat>)
    requires Loaded(rows, items, loaded) && forall i :: i in level <==> Matches(rows, parents, i)
    ensures Loaded(rows, items + level, loaded + parents)
  {
  }

  lemma LevelKnown(rows: Executions, roots: set<SessionId>, items: seq<nat>, known: set<SessionId>, level: seq<nat>)
    requires Known(rows, roots, items, known)
    ensures Known(rows, roots, items + level, known + SessionsOf(rows, level))
  {
    hide Sessions;
    forall s | s in known + SessionsOf(rows, level)
      ensures s in roots || Sessions(rows, items + level, s)
    {
      if s in SessionsOf(rows, level) {
        LevelSession(rows, items, level, s);
      } else if s !in roots {
        SessionsGrow(rows, items, level, s);
      }
    }
  }

  lemma LevelSession(rows: Executions, items: seq<nat>, level: seq<nat>, s: SessionId)
    requires s in SessionsOf(rows, level)
    ensures Sessions(rows, items + level, s)
  {
    var k :| 0 <= k < |level| && level[k] < |rows| && rows[level[k]].session == s;
    assert (items + level)[|items| + k] == level[k];
  }

  lemma LevelFrontier(rows: Executions, items: seq<nat>, known: set<SessionId>, level: seq<nat>)
    requires Frontier(rows, items, known)
    ensures Frontier(rows, items + level, known + SessionsOf(rows, level))
  {
  }

  /** A complete level keeps the walk's invariant, with the level's sessions pending. */
  lemma LevelWalks(rows: Executions, roots: set<SessionId>, items: seq<nat>, loaded: set<SessionId>,
                   parents: set<SessionId>, level: seq<nat>)
    requires Walking(rows, roots, items, loaded, parents) && loaded !! parents
    requires Level(rows, parents, level) && forall i :: i in level <==> Matches(rows, parents, i)
    ensures Walking(rows, roots, items + level, loaded + parents, SessionsOf(rows, level))
  {
    hide Distinct, ParentFirst, AllReachable, Loaded, Frontier, Known, SessionsOf, Level, Matches;
    LevelDistinct(rows, items, loaded, parents, level);
    LevelParentFirst(rows, roots, items, loaded + parents, parents, level);
    LevelReachable(rows, roots, items, loaded + parents, parents, level);
    LevelLoaded(rows, items, loaded, parents, level);
    LevelKnown(rows, roots, items, loaded + parents, level);
    LevelFrontier(rows, items, loaded + parents, level);
  }

  /** When nothing is pending, everything reachable is listed. */
  lemma {:induction false} WalkComplete(rows: Executions, roots: set<SessionId>, items: seq<nat>,
                                        loaded: set<SessionId>, chain: seq<nat>)
    requires Walking(rows, roots, items, loaded, {}) && Chain(rows, roots, chain)
    ensures chain[|chain| - 1] in items
  {
    var n := |chain| - 1;
    hide Distinct, ParentFirst, AllReachable, Known;
    assert loaded + {} == loaded;
    if n > 0 {
      assert Chain(rows, roots, chain[..n]);
      WalkComplete(rows, roots, items, loaded, chain[..n]);
      var k :| 0 <= k < |items| && items[k] == chain[n - 1];
    }
    assert Matches(rows, loaded, chain[n]);
  }

  /** What the walk promises about its answer. */
  ghost predicate Listed(rows: Executions, roots: set<SessionId>, items: seq<nat>) {
    Distinct(items) && ParentFirst(rows, roots, items) && AllReachable(rows, roots, items)
  }

  lemma LevelListed(rows: Executions, roots: set<SessionId>, items: seq<nat>, loaded: set<SessionId>,
                    parents: set<SessionId>, level: seq<nat>)
    requires Walking(rows, roots, items, loaded, parents) && loaded !! parents && Level(rows, parents, level)
    ensures Listed(rows, roots, items + level)
  {
    hide Distinct, ParentFirst, AllReachable, Loaded, Frontier, Known, Level;
    LevelDistinct(rows, items, loaded, parents, level);
    LevelParentFirst(rows, roots, items, loaded + parents, parents, level);
    LevelReachable(rows, roots, items, loaded + parents, parents, level);
  }

  /** The one-level query returns a prefix of the level, and all of it unless it says otherwise. */
  lemma LoadLevelIs(rows: Executions, parents: set<SessionId>, maximum: nat)
    ensures var (level, more) := LoadLevel(rows, parents, maximum);
            && Level(rows, parents, level) && |level| <= maximum
            && (!more ==> forall i :: i in level <==> Matches(rows, parents, i))
            && (more ==> |level| == maximum)
            && (forall i: nat, j :: Matches(rows, parents, i) && i !in level && j in level ==> j < i)
  {
    UnderIs(rows, parents, |rows|);
    var all := Under(rows, parents, |rows|);
    assert forall k :: 0 <= k < |all| ==> all[k] in all;
    hide Under;
  }

  // ------------------------------------------------------------------ the unbounded walk

  /** Everything reachable, level by level, each level in row order; `universe` bounds the sessions there are. */
  function BreadthFirst(rows: Executions, pending: set<SessionId>, loaded: set<SessionId>, universe: set<SessionId>)
    : seq<nat>
    requires pending <= universe && AllSessions(rows) <= universe
    decreases universe - loaded
  {
    var parents := pending - loaded;
    if parents == {} then []
    else
      var level := Under(rows, parents, |rows|);
      LevelInUniverse(rows, level);
      level + BreadthFirst(rows, SessionsOf(rows, level), loaded + parents, universe)
  }

  /** The shortest chain to `i` has `d` executions. */
  ghost predicate Distance(rows: Executions, roots: set<SessionId>, i: nat, d: nat) {
    && (exists chain :: Chain(rows, roots, chain) && chain[|chain| - 1] == i && |chain| == d)
    && forall chain :: Chain(rows, roots, chain) && chain[|chain| - 1] == i ==> |chain| >= d
  }

  /**
   Where level `n` starts: pending sessions are `n` steps away, what is nearer hangs from loaded
   sessions, and whatever they lead to is loaded or pending.
   */
  ghost predicate AtLevel(rows: Executions, roots: set<SessionId>, pending: set<SessionId>, loaded: set<SessionId>,
                          n: nat) {
    && (forall p :: p in pending && p !in loaded ==> SessionAt(rows, roots, p, n))
    && (forall chain :: Chain(rows, roots, chain) && |chain| <= n ==> rows[chain[|chain| - 1]].parent in loaded)
    && (forall i: nat :: Matches(rows, loaded, i) ==> rows[i].session in loaded + pending)
    && roots <= loaded + pending
  }

  /** Session `p` is a root, for `n` zero, or the last of a chain of `n`. */
  ghost predicate SessionAt(rows: Executions, roots: set<SessionId>, p: SessionId, n: nat) {
    if n == 0 then p in roots
    else exists chain :: Chain(rows, roots, chain) && |chain| == n && rows[chain[n - 1]].session == p
  }

  /** What hangs from a session at `n` has a chain of `n + 1`. */
  lemma ChildAt(rows: Executions, roots: set<SessionId>, p: SessionId, n: nat, i: nat) returns (chain: seq<nat>)
    requires SessionAt(rows, roots, p, n) && i < |rows| && rows[i].visible && rows[i].parent == p
    ensures Chain(rows, roots, chain) && |chain| == n + 1 && chain[n] == i
  {
    if n == 0 {
      chain := [i];
    } else {
      var above :| Chain(rows, roots, above) && |above| == n && rows[above[n - 1]].session == p;
      chain := above + [i];
    }
  }

  /** The parent of a chain's end is loaded or pending if the chain is at most one longer than the level. */
  lemma ChainParent(rows: Executions, roots: set<SessionId>, pending: set<SessionId>, loaded: set<SessionId>, n: nat,
                    chain: seq<nat>)
    requires AtLevel(rows, roots, pending, loaded, n) && Chain(rows, roots, chain) && |chain| <= n + 1
    ensures rows[chain[|chain| - 1]].parent in loaded + pending
  {
    var last := |chain| - 1;
    if last > 0 {
      assert Chain(rows, roots, chain[..last]);
      assert Matches(rows, loaded, chain[last - 1]);
    }
  }

  lemma LevelAt(rows: Executions, roots: set<SessionId>, pending: set<SessionId>, loaded: set<SessionId>, n: nat)
    requires AtLevel(rows, roots, pending, loaded, n)
    ensures var parents := pending - loaded;
            AtLevel(rows, roots, SessionsOf(rows, Under(rows, parents, |rows|)), loaded + parents, n + 1)
  {
    var parents := pending - loaded;
    var level := Under(rows, parents, |rows|);
    UnderIs(rows, parents, |rows|);
    hide Under, Chain;
    forall p | p in SessionsOf(rows, level)
      ensures SessionAt(rows, roots, p, n + 1)
    {
      var k :| 0 <= k < |level| && level[k] < |rows| && rows[level[k]].session == p;
      assert level[k] in level;
      var chain := ChildAt(rows, roots, rows[level[k]].parent, n, level[k]);
    }
    forall chain | Chain(rows, roots, chain) && |chain| <= n + 1
      ensures rows[chain[|chain| - 1]].parent in loaded + parents
    {
      ChainParent(rows, roots, pending, loaded, n, chain);
    }
    forall i: nat | Matches(rows, loaded + parents, i)
      ensures rows[i].session in loaded + parents + SessionsOf(rows, level)
    {
      if rows[i].parent in parents {
        assert i in level;
        var k :| 0 <= k < |level| && level[k] == i;
        assert rows[level[k]].session in SessionsOf(rows, level);
      } else {
        assert Matches(rows, loaded, i);
      }
    }
  }

  lemma LevelDistance(rows: Executions, roots: set<SessionId>, pending: set<SessionId>, loaded: set<SessionId>,
                      n: nat, i: nat)
    requires AtLevel(rows, roots, pending, loaded, n) && Matches(rows, pending - loaded, i)
    ensures Distance(rows, roots, i, n + 1)
  {
    var chain := ChildAt(rows, roots, rows[i].parent, n, i);
    hide Chain;
  }

  /** The unbounded walk lists nearer executions first. */
  lemma {:induction false} NearestFirst(rows: Executions, roots: set<SessionId>, pending: set<SessionId>,
                                        loaded: set<SessionId>,
                                        universe: set<SessionId>, n: nat) returns (ds: seq<nat>)
    requires pending <= universe && AllSessions(rows) <= universe && AtLevel(rows, roots, pending, loaded, n)
    ensures var items := BreadthFirst(rows, pending, loaded, universe);
            && |ds| == |items|
            && (forall k :: 0 <= k < |items| ==> Distance(rows, roots, items[k], ds[k]) && ds[k] > n)
            && (forall j, k :: 0 <= j < k < |items| ==> ds[j] <= ds[k])
    decreases universe - loaded
  {
    hide AtLevel, Distance, SessionsOf;
    var parents := pending - loaded;
    if parents == {} {
      ds := [];
    } else {
      var level := Under(rows, parents, |rows|);
      LevelInUniverse(rows, level);
      LevelAt(rows, roots, pending, loaded, n);
      var more := NearestFirst(rows, roots, SessionsOf(rows, level), loaded + parents, universe, n + 1);
      ds := seq(|level|, i requires 0 <= i < |level| => n + 1) + more;
      UnderIs(rows, parents, |rows|);
      hide Under, BreadthFirst;
      forall k | 0 <= k < |level|
        ensures Distance(rows, roots, level[k], n + 1)
      {
        assert level[k] in level;
        LevelDistance(rows, roots, pending, loaded, n, level[k]);
      }
    }
  }

  ghost function Universe(rows: Executions, roots: set<SessionId>): set<SessionId> {
    roots + AllSessions(rows)
  }

  /**
   The unbounded listing puts nearer executions before farther ones, and those equally near in the
   order of the rows only as far as their parents' level goes: each level is in row order.
   */
  lemma BreadthFirstByDistance(rows: Executions, roots: set<SessionId>, j: nat, k: nat, d: nat, e: nat)
    requires var items := BreadthFirst(rows, roots, {}, Universe(rows, roots));
             && j < k < |items| && Distance(rows, roots, items[j], d) && Distance(rows, roots, items[k], e)
    ensures d <= e
  {
    StartsAtRoots(rows, roots);
    hide AtLevel, BreadthFirst, Chain, Universe;
    var ds := NearestFirst(rows, roots, roots, {}, Universe(rows, roots), 0);
  }

  lemma StartsAtRoots(rows: Executions, roots: set<SessionId>)
    ensures AtLevel(rows, roots, roots, {}, 0) && roots <= Universe(rows, roots)
    ensures AllSessions(rows) <= Universe(rows, roots)
  {
  }

  /** Every session an execution has created. */
  function AllSessions(rows: Executions): set<SessionId> {
    set i | 0 <= i < |rows| :: rows[i].session
  }

  lemma LevelInUniverse(rows: Executions, level: seq<nat>)
    ensures SessionsOf(rows, level) <= AllSessions(rows)
  {
  }

  lemma WalkStarts(rows: Executions, roots: set<SessionId>)
    ensures Walking(rows, roots, [], {}, roots)
  {
  }

  lemma BreadthStep(rows: Executions, pending: set<SessionId>, loaded: set<SessionId>, universe: set<SessionId>)
    requires pending <= universe && AllSessions(rows) <= universe
    ensures var parents := pending - loaded;
            var level := Under(rows, parents, |rows|);
            && SessionsOf(rows, level) <= universe
            && BreadthFirst(rows, pending, loaded, universe) ==
               if parents == {} then [] else level + BreadthFirst(rows, SessionsOf(rows, level), loaded + parents, universe)
  {
    LevelInUniverse(rows, Under(rows, pending - loaded, |rows|));
  }

  lemma LevelPrefix(rows: Executions, parents: set<SessionId>, maximum: nat)
    ensures var (level, more) := LoadLevel(rows, parents, maximum);
            level <= Under(rows, parents, |rows|) && (!more ==> level == Under(rows, parents, |rows|))
  {
  }

  lemma PrefixOf(items: seq<nat>, level: seq<nat>, all: seq<nat>, rest: seq<nat>)
    requires level <= all
    ensures items + level <= items + (all + rest)
  {
  }

  /** Only the parents that are not loaded yet matter. */
  lemma WalkTrim(rows: Executions, roots: set<SessionId>, items: seq<nat>, loaded: set<SessionId>,
                 pending: set<SessionId>)
    requires Walking(rows, roots, items, loaded, pending)
    ensures Walking(rows, roots, items, loaded, pending - loaded)
  {
    assert loaded + (pending - loaded) == loaded + pending;
    hide Distinct, ParentFirst, AllReachable, Loaded, Frontier, Known;
  }

  lemma WalkEnds(rows: Executions, roots: set<SessionId>, items: seq<nat>, loaded: set<SessionId>)
    requires Walking(rows, roots, items, loaded, {})
    ensures Listed(rows, roots, items)
    ensures forall i :: i in items <==> Reachable(rows, roots, i)
  {
    forall i | Reachable(rows, roots, i)
      ensures i in items
    {
      var chain :| Chain(rows, roots, chain) && chain[|chain| - 1] == i;
      WalkComplete(rows, roots, items, loaded, chain);
    }
    hide Reachable, Distinct, ParentFirst, Loaded, Frontier, Known;
    forall i | i in items
      ensures Reachable(rows, roots, i)
    {
      var k :| 0 <= k < |items| && items[k] == i;
    }
  }

  ghost function ReachableSet(rows: Executions, roots: set<SessionId>): set<nat> {
    set i | 0 <= i < |rows| && Reachable(rows, roots, i)
  }

  function Elements(items: seq<nat>): set<nat> {
    set i | i in items
  }

  lemma {:induction false} DistinctCount(items: seq<nat>)
    requires Distinct(items)
    ensures |Elements(items)| == |items|
  {
    if items != [] {
      var n := |items| - 1;
      DistinctCount(items[..n]);
      assert items[n] !in Elements(items[..n]);
      assert Elements(items) == Elements(items[..n]) + {items[n]};
    }
  }

  /** A listing is part of what is reachable, and as long as its set is large. */
  lemma ListedCount(rows: Executions, roots: set<SessionId>, items: seq<nat>)
    requires Listed(rows, roots, items)
    ensures |items| <= |ReachableSet(rows, roots)|
    ensures (forall i :: i in items <==> Reachable(rows, roots, i)) ==> |items| == |ReachableSet(rows, roots)|
  {
    DistinctCount(items);
    assert Elements(items) <= ReachableSet(rows, roots) by {
      hide Reachable, Distinct, ParentFirst;
    }
    SubsetCount(Elements(items), ReachableSet(rows, roots));
    if forall i :: i in items <==> Reachable(rows, roots, i) {
      assert Elements(items) == ReachableSet(rows, roots) by {
        hide Reachable, Distinct, ParentFirst;
      }
    }
    hide Elements, ReachableSet, Reachable, Distinct, ParentFirst, AllReachable;
  }

  lemma {:induction false} SubsetCount(a: set<nat>, b: set<nat>)
    requires a <= b
    ensures |a| <= |b|
  {
    if a != {} {
      var x :| x in a;
      SubsetCount(a - {x}, b - {x});
    }
  }

  /**
   The walk over at most `maximum` items. It terminates on any graph, lists nothing twice and
   everything after its parent; unless it reports truncation it lists exactly the reachable
   executions, and it reports truncation exactly when there are at least `maximum` of them.
   */
  method LoadTree(rows: Executions, roots: set<SessionId>, maximum: nat) returns (items: seq<nat>, truncated: bool)
    ensures |items| <= maximum
    ensures Listed(rows, roots, items)
    ensures !truncated ==> forall i :: i in items <==> Reachable(rows, roots, i)
    ensures truncated ==> |items| == maximum
    ensures roots != {} ==> (truncated <==> |ReachableSet(rows, roots)| >= maximum)
    ensures items <= BreadthFirst(rows, roots, {}, Universe(rows, roots))
  {
    hide ReachableSet, Walking, Listed, Reachable, LoadLevel, Level, Matches, SessionsOf, AllSessions, BreadthFirst;
    items := [];
    var pending, loaded: set<SessionId> := roots, {};
    ghost var universe := Universe(rows, roots);
    ghost var all := BreadthFirst(rows, roots, {}, universe);
    WalkStarts(rows, roots);
    assert [] + all == all;
    while pending != {} && |items| <= maximum
      invariant Walking(rows, roots, items, loaded, pending)
      invariant loaded <= universe && pending <= universe
      invariant items + BreadthFirst(rows, pending, loaded, universe) == all
      invariant |items| <= maximum
      invariant (loaded == {} && pending == roots) || |items| < maximum
      decreases universe - loaded, pending
    {
      var parents := pending - loaded;
      WalkTrim(rows, roots, items, loaded, pending);
      BreadthStep(rows, pending, loaded, universe);
      if parents == {} {
        pending := {};
        BreadthStep(rows, {}, loaded, universe);
        continue;
      }
      LoadLevelIs(rows, parents, maximum - |items|);
      var (level, more) := LoadLevel(rows, parents, maximum - |items|);
      if more || |items + level| >= maximum {
        LevelListed(rows, roots, items, loaded, parents, level);
        ListedCount(rows, roots, items + level);
        LevelPrefix(rows, parents, maximum - |items|);
        PrefixOf(items, level, Under(rows, parents, |rows|), BreadthFirst(rows, SessionsOf(rows, Under(rows, parents,
                                                                                                       |rows|)), loaded + parents, universe));
        return items + level, true;
      }
      LevelPrefix(rows, parents, maximum - |items|);
      assert items + (level + BreadthFirst(rows, SessionsOf(rows, level), loaded + parents, universe)) ==
             items + level + BreadthFirst(rows, SessionsOf(rows, level), loaded + parents, universe);
      LevelWalks(rows, roots, items, loaded, parents, level);
      LevelInUniverse(rows, level);
      items := items + level;
      loaded := loaded + parents;
      pending := SessionsOf(rows, level);
    }
    WalkEnds(rows, roots, items, loaded);
    ListedCount(rows, roots, items);
    return items, false;
  }
}
