/** The recorded transitions of run attempts, put back in the order in which they happened. */
module AttemptHistory {
  import SM = StateMachines

  datatype Transition = Transition(attempt: nat, to: SM.AttemptState, at: nat, reason: nat)

  function TransitionRank(s: SM.AttemptState): nat {
    match s
    case Claimed => 1
    case Provisioning => 2
    case Restoring => 3
    case Running => 4
    case Checkpointing => 5
    case CancelRequested => 6
    case _ => 7
  }

  /** The rank rises along every transition an attempt can make. */
  lemma RankRises(from: SM.AttemptState, to: SM.AttemptState)
    requires to in SM.AttemptNext(from)
    ensures TransitionRank(from) < TransitionRank(to)
  {
  }

  // ------------------------------------------------------------------ sorting by time, then rank

  predicate NotAfter(a: Transition, b: Transition) {
    a.at < b.at || (a.at == b.at && TransitionRank(a.to) <= TransitionRank(b.to))
  }

  predicate Precedes(a: Transition, b: Transition) {
    a.at < b.at || (a.at == b.at && TransitionRank(a.to) < TransitionRank(b.to))
  }

  /** Put `t` before the first row that it may not come after, behind its equals. */
  function Insert(s: seq<Transition>, t: Transition): seq<Transition> {
    if s == [] then [t]
    else if NotAfter(s[|s| - 1], t) then s + [t]
    else Insert(s[..|s| - 1], t) + [s[|s| - 1]]
  }

  function Sort(rows: seq<Transition>): seq<Transition> {
    if rows == [] then [] else Insert(Sort(rows[..|rows| - 1]), rows[|rows| - 1])
  }

  function OfAttempt(rows: seq<Transition>, attempt: nat): seq<Transition> {
    if rows == [] then []
    else
      var n := |rows| - 1;
      OfAttempt(rows[..n], attempt) + if rows[n].attempt == attempt then [rows[n]] else []
  }

  /** What one attempt really did: it began claimed, moved along its table, and time did not run backwards. */
  ghost predicate LegalHistory(h: seq<Transition>, attempt: nat) {
    && (forall i :: 0 <= i < |h| ==> h[i].attempt == attempt)
    && (h != [] ==> h[0].to.Claimed?)
    && (forall i :: 0 <= i < |h| - 1 ==> h[i + 1].to in SM.AttemptNext(h[i].to) && h[i].at <= h[i + 1].at)
  }

  ghost predicate StrictlySorted(h: seq<Transition>) {
    forall i, j :: 0 <= i < j < |h| ==> Precedes(h[i], h[j])
  }

  lemma {:induction false} HistoryAscends(h: seq<Transition>, attempt: nat, i: nat, j: nat)
    requires LegalHistory(h, attempt) && i < j < |h|
    ensures Precedes(h[i], h[j])
  {
    RankRises(h[j - 1].to, h[j].to);
    if i < j - 1 {
      HistoryAscends(h, attempt, i, j - 1);
    }
    hide SM.AttemptNext;
  }

  lemma LegalIsSorted(h: seq<Transition>, attempt: nat)
    requires LegalHistory(h, attempt)
    ensures StrictlySorted(h)
  {
    forall i, j | 0 <= i < j < |h|
      ensures Precedes(h[i], h[j])
    {
      HistoryAscends(h, attempt, i, j);
    }
  }

  ghost predicate Ascending(s: seq<Transition>) {
    forall i, j :: 0 <= i < j < |s| ==> NotAfter(s[i], s[j])
  }

  lemma {:induction false} InsertSorts(s: seq<Transition>, t: Transition)
    requires Ascending(s)
    ensures Ascending(Insert(s, t)) && multiset(Insert(s, t)) == multiset(s) + multiset{t}
  {
    hide TransitionRank;
    if s != [] {
      var n := |s| - 1;
      assert s == s[..n] + [s[n]];
      if !NotAfter(s[n], t) {
        InsertSorts(s[..n], t);
        var front := Insert(s[..n], t);
        forall i | 0 <= i < |front|
          ensures NotAfter(front[i], s[n])
        {
          assert front[i] in multiset(front);
          if front[i] != t {
            assert front[i] in s[..n];
          }
        }
      }
    }
  }

  lemma {:induction false} SortSorts(rows: seq<Transition>)
    ensures Ascending(Sort(rows)) && multiset(Sort(rows)) == multiset(rows)
  {
    if rows != [] {
      var n := |rows| - 1;
      assert rows == rows[..n] + [rows[n]];
      SortSorts(rows[..n]);
      InsertSorts(Sort(rows[..n]), rows[n]);
    }
    hide Insert, NotAfter;
  }

  lemma DropLast(s: seq<Transition>)
    requires s != []
    ensures multiset(s[..|s| - 1]) == multiset(s) - multiset{s[|s| - 1]}
  {
    assert s == s[..|s| - 1] + [s[|s| - 1]];
  }

  /** Both lists end in the same row, and agree without it. */
  lemma WithoutLast(h: seq<Transition>, s: seq<Transition>)
    requires StrictlySorted(h) && Ascending(s) && multiset(h) == multiset(s) && h != []
    ensures |s| == |h| && s[|h| - 1] == h[|h| - 1]
    ensures multiset(h[..|h| - 1]) == multiset(s[..|h| - 1])
  {
    hide StrictlySorted, Ascending;
    SameCount(h, s);
    LastIsLast(h, s);
    DropLast(h);
    DropLast(s);
  }

  lemma PrefixesSorted(h: seq<Transition>, s: seq<Transition>, n: nat)
    requires StrictlySorted(h) && Ascending(s) && n <= |h| && n <= |s|
    ensures StrictlySorted(h[..n]) && Ascending(s[..n])
  {
    hide NotAfter, Precedes;
  }

  /** A strictly sorted list is the only way to put its rows in order. */
  lemma {:induction false} SortedUnique(h: seq<Transition>, s: seq<Transition>)
    requires StrictlySorted(h) && Ascending(s) && multiset(h) == multiset(s)
    ensures |s| == |h| && s[..|h|] == h[..|h|]
  {
    hide StrictlySorted, Ascending;
    SameCount(h, s);
    if h != [] {
      var n := |h| - 1;
      WithoutLast(h, s);
      PrefixesSorted(h, s, n);
      SortedUnique(h[..n], s[..n]);
      SameWithLast(h, s);
    }
  }

  lemma SameWithLast(h: seq<Transition>, s: seq<Transition>)
    requires h != [] && |s| == |h| && s[|h| - 1] == h[|h| - 1]
    requires h[..|h| - 1][..|h| - 1] == s[..|h| - 1][..|h| - 1]
    ensures s[..|h|] == h[..|h|]
  {
    assert s[..|h|] == s[..|h| - 1][..|h| - 1] + [s[|h| - 1]];
    assert h[..|h|] == h[..|h| - 1][..|h| - 1] + [h[|h| - 1]];
  }

  lemma SameCount(h: seq<Transition>, s: seq<Transition>)
    requires multiset(h) == multiset(s)
    ensures |h| == |s|
  {
    assert |multiset(h)| == |h| && |multiset(s)| == |s|;
  }

  lemma LastIsLast(h: seq<Transition>, s: seq<Transition>)
    requires StrictlySorted(h) && Ascending(s) && multiset(h) == multiset(s) && |h| == |s| && h != []
    ensures s[|s| - 1] == h[|h| - 1]
  {
    var n := |h| - 1;
    assert s[n] in multiset(s) && h[n] in multiset(h);
    var i :| 0 <= i < |h| && h[i] == s[n];
    var j :| 0 <= j < |s| && s[j] == h[n];
    hide TransitionRank;
  }

  lemma {:induction false} FilterCounts(rows: seq<Transition>, attempt: nat, t: Transition)
    ensures multiset(OfAttempt(rows, attempt))[t] == if t.attempt == attempt then multiset(rows)[t] else 0
  {
    if rows != [] {
      var n := |rows| - 1;
      assert rows == rows[..n] + [rows[n]];
      FilterCounts(rows[..n], attempt, t);
    }
  }

  lemma FilterPermutes(rows: seq<Transition>, recorded: seq<Transition>, attempt: nat)
    requires multiset(rows) == multiset(recorded)
    ensures multiset(OfAttempt(rows, attempt)) == multiset(OfAttempt(recorded, attempt))
  {
    forall t
      ensures multiset(OfAttempt(rows, attempt))[t] == multiset(OfAttempt(recorded, attempt))[t]
    {
      FilterCounts(rows, attempt, t);
      FilterCounts(recorded, attempt, t);
    }
  }

  /**
   However the transitions of all attempts of a run are returned, picking those of one attempt and
   sorting them by time and rank gives that attempt's history in the order it happened, ties included.
   */
  lemma HistoryRecovered(rows: seq<Transition>, recorded: seq<Transition>, attempt: nat)
    requires multiset(rows) == multiset(recorded) && LegalHistory(OfAttempt(recorded, attempt), attempt)
    ensures Sort(OfAttempt(rows, attempt)) == OfAttempt(recorded, attempt)
  {
    var h := OfAttempt(recorded, attempt);
    FilterPermutes(rows, recorded, attempt);
    LegalIsSorted(h, attempt);
    SortSorts(OfAttempt(rows, attempt));
    var s := Sort(OfAttempt(rows, attempt));
    SortedUnique(h, s);
    assert s[..|h|] == s && h[..|h|] == h;
  }
}
