/**
 Forks of forks without end: a fork checks no depth, so for every length there is a run that
 reaches a live conversation with a lineage of that length, and beyond 100 it can no longer be read.
 */
module DeepLineage {
  import opened Common
  import opened Branches
  import opened MappedEntries
  import opened Sessions
  import opened Forest
  import opened FocusView
  import H = HistoryWindow
  import SM = StateMachines

  /** The single answer of session `n`, written under its leaf. */
  function AnswerOf(n: nat, leaf: Option<EntryId>): Entry {
    Entry(n, leaf, MessageEntry, Some(Message(Assistant, Some(Settled), "")), 0)
  }

  /** A session that has completed its one turn, whose answer is its leaf and its only anchor. */
  ghost predicate Answered(s: Session, n: nat) {
    && !s.archived && s.state.Idle? && s.leaf == Some(n)
    && s.turns == [Turn(n, 1, SM.TurnState.Completed, false)]
    && AnchorOf(s, n, n) && (forall e :: e in s.entries ==> e <= n)
  }

  /** A session that has written nothing of its own yet. */
  ghost predicate Untouched(s: Session, n: nat) {
    && !s.archived && s.turns == [] && Own(s) == [] && (forall e :: e in s.entries ==> e < n)
  }

  /** Sessions 0 to `n`, the last one answered, its lineage all of them. */
  ghost predicate Tower(f: Forest, n: nat) {
    && Good(f) && |f| == n + 1 && (forall x :: x in f ==> x <= n) && n in f
    && Answered(f[n], n) && |Lineage(f, n)| == n + 1
  }

  // ------------------------------------------------------------------ one turn, one answer

  lemma OneFinal(e: Entry)
    requires e == AnswerOf(e.id, e.parentId)
    ensures FinalIndices([e]) == [0]
  {
    assert [e][..0] == [];
  }

  lemma OneEntry(rows: EntryTable, leaf: Option<EntryId>, e: Entry)
    ensures Extend(rows, [e]) == rows[e.id := e] && LeafAfter(leaf, [e]) == Some(e.id)
    ensures Appendable(rows, leaf, [e]) <==> e.id !in rows && e.parentId == leaf
  {
    assert [e][..0] == [];
    assert Extend(rows, []) == rows && Appendable(rows, leaf, []);
  }

  lemma OnlyAnchor(e: Entry, t: TurnId)
    requires e == AnswerOf(e.id, e.parentId)
    ensures IsAnchor([e], [t], t, e.id)
  {
    OneFinal(e);
    hide FinalIndices;
    assert PairAt([0], [t], 0, t, 0);
  }

  /** The session with its one turn queued can be settled with its answer. */
  lemma SettlesAnswered(s: Session, n: nat)
    requires SessionOk(s) && Own(s) == [] && !s.archived && (forall e :: e in s.entries ==> e < n)
    requires s.turns == [Turn(n, 1, SM.TurnState.Queued, false)]
    ensures CanSettle(s, 0, SM.TurnState.Completed, [AnswerOf(n, s.leaf)])
    ensures Answered(Settle(s, 0, SM.TurnState.Completed, [AnswerOf(n, s.leaf)]), n)
  {
    hide Extend, Appendable, LeafAfter, FinalIndices, SessionOk, IsAnchor, CompletedTurns, OwnOf, Branch, ActiveBranch;
    var e := AnswerOf(n, s.leaf);
    OneFinal(e);
    OneEntry(s.entries, s.leaf, e);
    assert n !in s.entries;
    SettleBranch(s, 0, SM.TurnState.Completed, [e]);
    OnlyAnchor(e, n);
    assert [] + [e] == [e];
    CompletedOne(Turn(n, 1, SM.TurnState.Completed, false));
    var s' := Settle(s, 0, SM.TurnState.Completed, [e]);
    assert s'.turns == [Turn(n, 1, SM.TurnState.Completed, false)];
    assert s'.entries == s.entries[n := e];
    assert AnchorOf(s', n, n);
  }

  /** Admitting a turn to an untouched session and completing it makes the session answered. */
  lemma AnswersTurn(f: Forest, n: nat)
    requires Good(f) && n in f && Untouched(f[n], n)
    ensures var steps := [AdmitStep(n, n, 1), SettleStep(n, 0, SM.TurnState.Completed, [AnswerOf(n, f[n].leaf)])];
            var f' := Apply(Apply(f, steps[0]), steps[1]);
            && n in f' && f' == f[n := f'[n]] && f'[n].fork == f[n].fork && f'[n].serial == f[n].serial
            && Answered(f'[n], n)
  {
    hide SessionOk, Answered, CanSettle, Closed, Anchored, LinkOk, Settle, Own;
    var queued := f[n].(turns := [Turn(n, 1, SM.TurnState.Queued, false)]);
    AdmitsFirst(f, n);
    ApplyGood(f, AdmitStep(n, n, 1));
    assert SessionOk(f[n := queued][n]);
    OwnStays(f[n], queued);
    SettlesAnswered(queued, n);
    SettleKeepsIdentity(queued, [AnswerOf(n, f[n].leaf)]);
  }

  lemma AdmitsFirst(f: Forest, n: nat)
    requires n in f && f[n].turns == []
    ensures Apply(f, AdmitStep(n, n, 1)) == f[n := f[n].(turns := [Turn(n, 1, SM.TurnState.Queued, false)])]
  {
    assert [] + [Turn(n, 1, SM.TurnState.Queued, false)] == [Turn(n, 1, SM.TurnState.Queued, false)];
  }

  lemma OwnStays(s: Session, s': Session)
    requires s' == s.(turns := s'.turns)
    ensures Own(s') == Own(s)
  {
  }

  lemma SettleKeepsIdentity(s: Session, ext: seq<Entry>)
    requires |s.turns| == 1
    ensures var s' := Settle(s, 0, SM.TurnState.Completed, ext); s'.fork == s.fork && s'.serial == s.serial
  {
  }

  // ------------------------------------------------------------------ one more fork

  lemma PathBelow(s: Session, path: seq<Entry>, n: nat)
    requires SessionOk(s) && path <= Branch(s) && path != [] && forall e :: e in s.entries ==> e <= n
    ensures forall e :: e in Extend(map[], path) ==> e <= n
  {
    hide Extend, Appendable;
    ActiveBranchIsTheBranch(s.entries, s.leaf, Branch(s));
    var i := |path| - 1;
    assert path == Branch(s)[..i + 1];
    BranchPrefix(s.entries, s.leaf, Branch(s), i);
    PathAppends(s.entries, Some(Branch(s)[i].id), path);
    forall e | e in Extend(map[], path)
      ensures e <= n
    {
      var j :| 0 <= j < |path| && path[j].id == e;
      assert Branch(s)[j].id in s.entries;
    }
  }

  /** The answer of an answered session can be forked at. */
  lemma Forkable(s: Session, n: nat)
    requires SessionOk(s) && Answered(s, n)
    ensures ViewOf(s).Ok? && FindTarget(ViewOf(s).value, n, n).Some? && FindEntry(Branch(s), n).Some?
    ensures Quiet(s) && !Unsettled(s.turns, false)
  {
    hide Mapped, FindTarget, FindEntry, ActiveBranch, FinalIndices, CompletedTurns, IsAnchor, SessionOk, Lookup;
    ViewIsMapped(s);
    TargetsAreAnchors(Own(s), CompletedTurns(s.turns), n, n);
    var m, c, j, i := AnchorPlace(s, n, n);
    EntryAt(Own(s), i, n);
    OwnInBranch(s, n);
  }

  lemma ForksTop(f: Forest, n: nat)
    requires Good(f) && n in f && n + 1 !in f && Answered(f[n], n)
    ensures var f' := Apply(f, ForkStep(n, n, n, n + 1, false));
            && n + 1 in f' && f' == f[n + 1 := f'[n + 1]]
            && f'[n + 1].fork == Some(ForkPoint(n, n, n)) && f'[n + 1].serial == |f| && Untouched(f'[n + 1], n + 1)
  {
    hide Mapped, FindTarget, FindEntry, ActiveBranch, CompletedTurns, IsAnchor, Lookup, Extend, Closed, LinkOk, ViewOf,
      Unsettled, Quiet, WellKeyed, TurnsOk;
    var s := f[n];
    Forkable(s, n);
    var k := ForkPoint(n, n, n);
    ForkCopiesPath(s, |f|, k);
    var i := FindEntry(Branch(s), n).value;
    assert Branch(s)[..i + 1] != [];
    PathBelow(s, Branch(s)[..i + 1], n);
    var f' := Apply(f, ForkStep(n, n, n, n + 1, false));
    assert f' == f[n + 1 := ForkedSession(|f|, k, Branch(s)[..i + 1])];
  }

  /** New sessions beside a lineage, and changes that keep its forks, leave it alone. */
  lemma {:induction false} LineageStays(f: Forest, f': Forest, x: SessionId)
    requires Inv(f) && x in f
    requires forall y :: y in f ==> y in f' && f'[y].fork == f[y].fork && f'[y].serial == f[y].serial
    ensures Lineage(f', x) == Lineage(f, x)
    decreases f[x].serial
  {
    hide SessionOk;
    assert LinkOk(f, x);
    if f[x].fork.Some? {
      LineageStays(f, f', f[x].fork.value.parent);
    }
  }

  lemma ForkLengthens(f: Forest, f': Forest, n: nat)
    requires Inv(f) && n in f && n + 1 !in f && f[n].serial < |f|
    requires n + 1 in f' && f' == f[n + 1 := f'[n + 1]]
    requires f'[n + 1].fork == Some(ForkPoint(n, n, n)) && f'[n + 1].serial == |f|
    ensures |Lineage(f', n + 1)| == |Lineage(f, n)| + 1
  {
    hide Inv;
    LineageStays(f, f', n);
  }

  // ------------------------------------------------------------------ towers of every height

  lemma RunOne(steps: seq<Step>, a: Step)
    ensures Run(steps + [a]) == Apply(Run(steps), a)
  {
    hide Apply;
    assert (steps + [a])[..|steps|] == steps;
  }

  lemma RunOn(steps: seq<Step>, a: Step, b: Step)
    ensures Run(steps + [a, b]) == Apply(Apply(Run(steps), a), b)
  {
    hide Apply, Run;
    RunOne(steps, a);
    RunOne(steps + [a], b);
    assert steps + [a] + [b] == steps + [a, b];
  }

  lemma Ground() returns (steps: seq<Step>)
    ensures Tower(Run(steps), 0)
  {
    hide Apply, Good, Run, Tower, Scaffold;
    steps := [CreateStep(0)];
    assert [] + [CreateStep(0)] == [CreateStep(0)];
    RunOne([], CreateStep(0));
    Nothing();
    Created();
    RunGood(steps);
    var f := Run(steps);
    GroundPlan(f);
    ScaffoldTop(f, 0);
    Furnished(f, 0);
    var admit, settle := AdmitStep(0, 0, 1), SettleStep(0, 0, SM.TurnState.Completed, [AnswerOf(0, f[0].leaf)]);
    RunOn(steps, admit, settle);
    steps := steps + [admit, settle];
    RunGood(steps);
  }

  lemma Nothing()
    ensures Run([]) == map[]
  {
  }

  lemma GroundPlan(f: Forest)
    requires Good(f) && f == map[0 := Session(0, None, false, SM.SessionState.Cold, map[], None, [])]
    ensures Scaffold(f, 0)
  {
    hide Good;
    assert Lineage(f, 0) == [0];
    assert Own(f[0]) == [];
  }

  lemma Created()
    ensures Apply(map[], CreateStep(0)) == map[0 := Session(0, None, false, SM.SessionState.Cold, map[], None, [])]
  {
  }

  /** The top of the tower forked. */
  ghost predicate Scaffold(f: Forest, n: nat) {
    && Good(f) && |f| == n + 1 && (forall x :: x in f ==> x <= n) && n in f
    && Untouched(f[n], n) && |Lineage(f, n)| == n + 1
  }

  lemma Raised(f: Forest, n: nat)
    requires Tower(f, n) && Good(Apply(f, ForkStep(n, n, n, n + 1, false)))
    ensures Scaffold(Apply(f, ForkStep(n, n, n, n + 1, false)), n + 1)
  {
    hide Apply, Answered, Untouched, Good, Lineage;
    ForksTop(f, n);
    GoodParts(f);
    var f1 := Apply(f, ForkStep(n, n, n, n + 1, false));
    ForkLengthens(f, f1, n);
    assert f1.Keys == f.Keys + {n + 1};
    assert |f1| == |f1.Keys| == |f.Keys| + 1;
  }

  lemma Furnished(f: Forest, n: nat)
    requires Scaffold(f, n)
    ensures var steps := [AdmitStep(n, n, 1), SettleStep(n, 0, SM.TurnState.Completed, [AnswerOf(n, f[n].leaf)])];
            var f' := Apply(Apply(f, steps[0]), steps[1]);
            Good(f') ==> Tower(f', n)
  {
    hide Apply, Answered, Untouched, Good, Lineage;
    AnswersTurn(f, n);
    GoodParts(f);
    var f' := Apply(Apply(f, AdmitStep(n, n, 1)), SettleStep(n, 0, SM.TurnState.Completed, [AnswerOf(n, f[n].leaf)]));
    LineageStays(f, f', n);
    assert f'.Keys == f.Keys;
    assert |f'| == |f'.Keys| == |f|;
  }

  lemma OneStorey(steps: seq<Step>, n: nat) returns (higher: seq<Step>)
    requires Tower(Run(steps), n)
    ensures Tower(Run(higher), n + 1)
  {
    hide Apply, Good, Run, Tower, Scaffold;
    var fork := ForkStep(n, n, n, n + 1, false);
    RunOne(steps, fork);
    higher := steps + [fork];
    RunGood(higher);
    Raised(Run(steps), n);
    var f := Run(higher);
    ScaffoldTop(f, n + 1);
    Furnished(f, n + 1);
    var admit, settle := AdmitStep(n + 1, n + 1, 1), SettleStep(n + 1, 0, SM.TurnState.Completed, [AnswerOf(n + 1, f[n + 1].leaf)]);
    RunOn(higher, admit, settle);
    higher := higher + [admit, settle];
    RunGood(higher);
  }

  lemma ScaffoldTop(f: Forest, n: nat)
    requires Scaffold(f, n)
    ensures n in f
  {
  }

  lemma GoodParts(f: Forest)
    requires Good(f)
    ensures Inv(f) && forall x :: x in f ==> f[x].serial < |f|
  {
    hide SessionOk, LinkOk;
  }

  lemma {:induction false} TowerReached(n: nat) returns (steps: seq<Step>)
    ensures Tower(Run(steps), n)
  {
    hide Run, Tower;
    if n == 0 {
      steps := Ground();
    } else {
      steps := TowerReached(n - 1);
      steps := OneStorey(steps, n - 1);
    }
  }

  /**
   For every length there is a run without restores that reaches a live conversation with a lineage
   of that length; one longer than 100 can be neither shown as a tree nor read as a history.
   */
  lemma LineagesUnbounded(length: nat) returns (steps: seq<Step>, x: SessionId)
    requires length > 0
    ensures x in Run(steps) && !Run(steps)[x].archived && |Lineage(Run(steps), x)| == length
    ensures length > 100 ==>
              && FocusedTree(Run(steps), x) == Err(LineageInvalid)
              && H.LastTurns(Run(steps), x) == Err(H.LineageFailed(LineageInvalid))
  {
    x := length - 1;
    steps := TowerReached(x);
    hide Run, Good;
    TopLive(Run(steps), x);
    LineageFound(Run(steps), x);
  }

  lemma TopLive(f: Forest, n: nat)
    requires Tower(f, n)
    ensures !f[n].archived
  {
  }
}
