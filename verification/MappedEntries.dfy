/**
 The conversation view of a branch: the part a forked session owns, and its final
 assistant messages paired from the tail with the completed turns.
 */
module MappedEntries {
  import opened Common
  import opened Branches

  // ------------------------------------------------------------------ own branch

  function FindEntry(b: seq<Entry>, id: EntryId): (r: Option<nat>)
    ensures r.Some? ==> r.value < |b| && b[r.value].id == id && forall i :: 0 <= i < r.value ==> b[i].id != id
    ensures r.None? ==> forall i :: 0 <= i < |b| ==> b[i].id != id
  {
    if b == [] then None
    else match FindEntry(b[..|b| - 1], id)
         case Some(i) => Some(i)
         case None => if b[|b| - 1].id == id then Some(|b| - 1) else None
  }

  /** What follows the fork anchor; the whole branch of an unforked session. */
  function OwnBranch(b: seq<Entry>, forkEntryId: Option<EntryId>): Result<seq<Entry>, TreeError> {
    if forkEntryId.None? then Ok(b)
    else match FindEntry(b, forkEntryId.value)
         case None => Err(MissingForkAnchor)
         case Some(anchor) => Ok(b[anchor + 1..])
  }

  // ------------------------------------------------------------------ mapping

  /** An assistant message that stopped for a reason other than tool use, error, abort or still pending. */
  predicate IsFinalAssistant(m: Message) {
    m.role == Assistant && m.stopReason == Some(Settled)
  }

  predicate IsFinal(e: Entry) {
    e.kind == MessageEntry && e.message.Some? && IsFinalAssistant(e.message.value)
  }

  predicate IsUser(e: Entry) {
    e.kind == MessageEntry && e.message.Some? && e.message.value.role == User
  }

  datatype MappedEntry = MappedEntry(
    entryId: EntryId,
    parentEntryId: Option<EntryId>,
    turnId: TurnId,
    role: Role,
    text: string,
    finalAssistant: bool,
    createdAt: nat,
    index: nat)

  predicate Indices(fs: seq<nat>, n: nat) {
    && (forall i :: 0 <= i < |fs| ==> fs[i] < n)
    && (forall i, j :: 0 <= i < j < |fs| ==> fs[i] < fs[j])
  }

  /** The positions of the final assistant messages, in order. */
  function FinalIndices(b: seq<Entry>): (fs: seq<nat>)
    ensures Indices(fs, |b|)
    ensures forall i :: 0 <= i < |fs| ==> IsFinal(b[fs[i]])
  {
    if b == [] then []
    else
      var n := |b| - 1;
      var fs := FinalIndices(b[..n]);
      if IsFinal(b[n]) then fs + [n] else fs
  }

  function FirstUser(b: seq<Entry>, lo: nat, hi: nat): (r: Option<nat>)
    requires lo <= hi <= |b|
    ensures r.Some? ==> lo <= r.value < hi && IsUser(b[r.value])
    decreases hi - lo
  {
    if lo == hi then None else if IsUser(b[lo]) then Some(lo) else FirstUser(b, lo + 1, hi)
  }

  function TextOf(m: Option<Message>): string {
    match m
    case Some(message) => message.text
    case None => ""
  }

  function View(b: seq<Entry>, i: nat, turn: TurnId, role: Role): MappedEntry
    requires i < |b|
  {
    MappedEntry(b[i].id, b[i].parentId, turn, role, TextOf(b[i].message), role == Assistant, b[i].timestamp, i)
  }

  /** One turn of the view: the first user message after `lo`, if any, and the final at `f`. */
  function TurnView(b: seq<Entry>, lo: nat, f: nat, turn: TurnId): (r: seq<MappedEntry>)
    requires lo <= f < |b|
    ensures 1 <= |r| <= 2 && r[|r| - 1] == View(b, f, turn, Assistant)
    ensures |r| == 2 ==> lo <= r[0].index < f && !r[0].finalAssistant && r[0].entryId == b[r[0].index].id
  {
    (match FirstUser(b, lo, f)
     case Some(u) => [View(b, u, turn, User)]
     case None => []) + [View(b, f, turn, Assistant)]
  }

  /**
   The views of `n` consecutive turns, from `ts[e]` on, whose final messages are at `fs[d]` on.
   The user message of the first is sought from the start of the branch.
   */
  function PairedView(b: seq<Entry>, fs: seq<nat>, d: nat, ts: seq<TurnId>, e: nat, n: nat): seq<MappedEntry>
    requires Indices(fs, |b|) && d + n <= |fs| && e + n <= |ts|
    decreases n
  {
    if n == 0 then []
    else PairedView(b, fs, d, ts, e, n - 1) + TurnView(b, SegmentStart(fs, d, n - 1), fs[d + n - 1], ts[e + n - 1])
  }

  function SegmentStart(fs: seq<nat>, d: nat, i: nat): nat
    requires d + i < |fs|
  {
    if i == 0 then 0 else fs[d + i - 1] + 1
  }

  function Min(a: nat, b: nat): nat {
    if a <= b then a else b
  }

  /** The view of a branch whose final messages are at `fs`: the tails of `fs` and `turns` are paired. */
  function TailView(b: seq<Entry>, fs: seq<nat>, turns: seq<TurnId>): seq<MappedEntry>
    requires Indices(fs, |b|)
  {
    var k := Min(|fs|, |turns|);
    PairedView(b, fs, |fs| - k, turns, |turns| - k, k)
  }

  function Mapped(b: seq<Entry>, turns: seq<TurnId>): seq<MappedEntry> {
    TailView(b, FinalIndices(b), turns)
  }

  /** The two loops: collect the finals, then pair the tails and look for each turn's user message. */
  method ComputeMappedEntries(branch: seq<Entry>, turns: seq<TurnId>) returns (result: seq<MappedEntry>)
    ensures result == Mapped(branch, turns)
  {
    var finals: seq<nat> := [];
    for i := 0 to |branch|
      invariant finals == FinalIndices(branch[..i])
    {
      assert branch[..i + 1][..i] == branch[..i];
      if IsFinal(branch[i]) {
        finals := finals + [i];
      }
    }
    assert branch[..|branch|] == branch;
    result := PairTails(branch, finals, turns);
  }

  method PairTails(branch: seq<Entry>, finals: seq<nat>, turns: seq<TurnId>) returns (result: seq<MappedEntry>)
    requires Indices(finals, |branch|)
    ensures result == TailView(branch, finals, turns)
  {
    hide TurnView;
    var pairCount := Min(|finals|, |turns|);
    var d, e := |finals| - pairCount, |turns| - pairCount;
    result := [];
    var previousFinalIndex: int := -1;
    for pairIndex := 0 to pairCount
      invariant result == PairedView(branch, finals, d, turns, e, pairIndex)
      invariant previousFinalIndex + 1 == if pairIndex == 0 then 0 else finals[d + pairIndex - 1] + 1
    {
      var final, turn := finals[d + pairIndex], turns[e + pairIndex];
      assert previousFinalIndex + 1 == SegmentStart(finals, d, pairIndex);
      var view := ViewTurn(branch, previousFinalIndex + 1, final, turn);
      result := result + view;
      previousFinalIndex := final;
    }
  }

  method ViewTurn(branch: seq<Entry>, start: nat, final: nat, turn: TurnId) returns (view: seq<MappedEntry>)
    requires start <= final < |branch|
    ensures view == TurnView(branch, start, final, turn)
  {
    var user := start;
    while user < final && !IsUser(branch[user])
      invariant start <= user <= final
      invariant FirstUser(branch, start, final) == FirstUser(branch, user, final)
    {
      user := user + 1;
    }
    view := [];
    if user < final {
      view := view + [View(branch, user, turn, User)];
    }
    view := view + [View(branch, final, turn, Assistant)];
  }

  // ------------------------------------------------------------------ anchors

  /** The `j`-th of the tail pairs joins turn `t` with the final message at position `f`. */
  ghost predicate PairAt(fs: seq<nat>, turns: seq<TurnId>, j: nat, t: TurnId, f: nat) {
    var k := Min(|fs|, |turns|);
    j < k && turns[|turns| - k + j] == t && fs[|fs| - k + j] == f
  }

  /** `(t, e)` is a completed turn of the view and the identifier of its final message. */
  ghost predicate IsAnchor(b: seq<Entry>, turns: seq<TurnId>, t: TurnId, e: EntryId) {
    exists j: nat, f: nat :: PairAt(FinalIndices(b), turns, j, t, f) && b[f].id == e
  }

  predicate Targets(m: MappedEntry, t: TurnId, e: EntryId) {
    m.finalAssistant && m.turnId == t && m.entryId == e
  }

  /** The first entry of the view that is the final message `e` of turn `t`. */
  function FindTarget(ms: seq<MappedEntry>, t: TurnId, e: EntryId): (r: Option<nat>)
    ensures r.Some? ==> r.value < |ms| && Targets(ms[r.value], t, e)
    ensures r.None? ==> forall i :: 0 <= i < |ms| ==> !Targets(ms[i], t, e)
  {
    if ms == [] then None
    else match FindTarget(ms[..|ms| - 1], t, e)
         case Some(i) => Some(i)
         case None => if Targets(ms[|ms| - 1], t, e) then Some(|ms| - 1) else None
  }

  lemma {:induction false} PairedViewPrefix(b: seq<Entry>, fs: seq<nat>, d: nat, ts: seq<TurnId>, e: nat, n: nat,
                                            m: nat)
    requires Indices(fs, |b|) && n <= m && d + m <= |fs| && e + m <= |ts|
    ensures PairedView(b, fs, d, ts, e, n) <= PairedView(b, fs, d, ts, e, m)
  {
    hide TurnView;
    if n < m {
      PairedViewPrefix(b, fs, d, ts, e, n, m - 1);
    }
  }

  /** The view of the first `n` turns depends only on the branch up to their last final message. */
  lemma {:induction false} PairedViewAgrees(b: seq<Entry>, fs: seq<nat>, ts: seq<TurnId>,
                                            b': seq<Entry>, fs': seq<nat>, ts': seq<TurnId>, d: nat, e: nat, n: nat)
    requires Indices(fs, |b|) && d + n <= |fs| && e + n <= |ts|
    requires Indices(fs', |b'|) && d + n <= |fs'| && e + n <= |ts'|
    requires forall i :: d <= i < d + n ==> fs[i] == fs'[i]
    requires forall i :: e <= i < e + n ==> ts[i] == ts'[i]
    requires n > 0 ==> forall i :: 0 <= i <= fs[d + n - 1] ==> b[i] == b'[i]
    ensures PairedView(b, fs, d, ts, e, n) == PairedView(b', fs', d, ts', e, n)
  {
    if n > 0 {
      PairedViewAgrees(b, fs, ts, b', fs', ts', d, e, n - 1);
      FirstUserAgrees(b, b', SegmentStart(fs, d, n - 1), fs[d + n - 1]);
    }
  }

  lemma {:induction false} FirstUserAgrees(b: seq<Entry>, b': seq<Entry>, lo: nat, hi: nat)
    requires lo <= hi <= |b| && hi <= |b'|
    requires forall i :: lo <= i < hi ==> b[i] == b'[i]
    ensures FirstUser(b, lo, hi) == FirstUser(b', lo, hi)
    decreases hi - lo
  {
    if lo < hi {
      FirstUserAgrees(b, b', lo + 1, hi);
    }
  }

  lemma {:induction false} FinalIndicesPrefix(b: seq<Entry>, m: nat)
    requires m <= |b|
    ensures FinalIndices(b[..m]) <= FinalIndices(b)
  {
    if m == |b| {
      assert b[..m] == b;
    } else {
      var n := |b| - 1;
      assert b[..n][..m] == b[..m];
      FinalIndicesPrefix(b[..n], m);
    }
  }

  /** Every final message is listed. */
  lemma {:induction false} FinalIndicesComplete(b: seq<Entry>, i: nat) returns (c: nat)
    requires i < |b| && IsFinal(b[i])
    ensures c < |FinalIndices(b)| && FinalIndices(b)[c] == i
  {
    var n := |b| - 1;
    if i == n {
      c := |FinalIndices(b)| - 1;
    } else {
      c := FinalIndicesComplete(b[..n], i);
    }
  }

  /** The finals up to and including the `c`-th are those of the branch cut just after it. */
  lemma FinalIndicesCut(b: seq<Entry>, c: nat)
    requires c < |FinalIndices(b)|
    ensures FinalIndices(b[..FinalIndices(b)[c] + 1]) == FinalIndices(b)[..c + 1]
  {
    var fs := FinalIndices(b);
    var cut := b[..fs[c] + 1];
    FinalIndicesPrefix(b, fs[c] + 1);
    var i := FinalIndicesComplete(cut, fs[c]);
    var gs := FinalIndices(cut);
    assert gs[i] == fs[i] && gs[|gs| - 1] == fs[|gs| - 1];
    assert |gs| == c + 1;
  }

  // ------------------------------------------------------------------ stability of the mapping

  /** The view up to pair `n` ends with the final message of pair `n`. */
  lemma PairedViewEnd(b: seq<Entry>, fs: seq<nat>, d: nat, ts: seq<TurnId>, e: nat, n: nat)
    requires Indices(fs, |b|) && d + n < |fs| && e + n < |ts|
    ensures var view := PairedView(b, fs, d, ts, e, n + 1);
            view != [] && view[|view| - 1] == View(b, fs[d + n], ts[e + n], Assistant)
  {
    hide FirstUser;
  }

  /**
   Cutting at the `j`-th pair, whatever the numbers of finals and of turns, keeps the tails
   aligned: the pairs up to `j` are the same and the view is the old one up to that final.
   */
  lemma TailViewCut(b: seq<Entry>, fs: seq<nat>, turns: seq<TurnId>, j: nat, t: TurnId, f: nat)
    requires Indices(fs, |b|) && PairAt(fs, turns, j, t, f)
    ensures var k := Min(|fs|, |turns|);
            var fs', turns' := fs[..|fs| - k + j + 1], turns[..|turns| - k + j + 1];
            && Indices(fs', |b[..f + 1]|)
            && Min(|fs'|, |turns'|) == j + 1
            && TailView(b[..f + 1], fs', turns') <= TailView(b, fs, turns)
            && TailView(b[..f + 1], fs', turns') != []
            && TailView(b[..f + 1], fs', turns')[|TailView(b[..f + 1], fs', turns')| - 1] == View(b, f, t, Assistant)
  {
    hide PairedView, TurnView, SegmentStart;
    var k := Min(|fs|, |turns|);
    var d, e := |fs| - k, |turns| - k;
    var fs', turns' := fs[..d + j + 1], turns[..e + j + 1];
    PairedViewAgrees(b, fs, turns, b[..f + 1], fs', turns', d, e, j + 1);
    PairedViewPrefix(b, fs, d, turns, e, j + 1, k);
    PairedViewEnd(b, fs, d, turns, e, j);
  }

  /** One more final and one more turn at the tails extend the view. */
  lemma TailViewGrow(b: seq<Entry>, fs: seq<nat>, turns: seq<TurnId>, ext: seq<Entry>, f: nat, t: TurnId)
    requires Indices(fs, |b|) && |b| <= f < |b| + |ext|
    ensures Indices(fs + [f], |b + ext|)
    ensures TailView(b, fs, turns) <= TailView(b + ext, fs + [f], turns + [t])
  {
    hide PairedView, TurnView, SegmentStart;
    var k := Min(|fs|, |turns|);
    var d, e := |fs| - k, |turns| - k;
    PairedViewAgrees(b, fs, turns, b + ext, fs + [f], turns + [t], d, e, k);
    PairedViewPrefix(b + ext, fs + [f], d, turns + [t], e, k, k + 1);
  }

  lemma TailViewStay(b: seq<Entry>, fs: seq<nat>, turns: seq<TurnId>, ext: seq<Entry>)
    requires Indices(fs, |b|)
    ensures TailView(b, fs, turns) == TailView(b + ext, fs, turns)
  {
    hide PairedView, TurnView, SegmentStart;
    var k := Min(|fs|, |turns|);
    PairedViewAgrees(b, fs, turns, b + ext, fs, turns, |fs| - k, |turns| - k, k);
  }

  function Shift(fs: seq<nat>, offset: nat): seq<nat> {
    seq(|fs|, i requires 0 <= i < |fs| => fs[i] + offset)
  }

  lemma {:induction false} FinalIndicesAppend(b: seq<Entry>, ext: seq<Entry>)
    ensures FinalIndices(b + ext) == FinalIndices(b) + Shift(FinalIndices(ext), |b|)
  {
    if ext == [] {
      assert b + ext == b;
    } else {
      var n := |ext| - 1;
      assert (b + ext)[..|b| + n] == b + ext[..n];
      FinalIndicesAppend(b, ext[..n]);
    }
  }

  /**
   Pruning is a prefix: cutting the branch at a mapped final message and the turns at its turn
   gives back exactly the view up to and including that message.
   */
  lemma MappedCut(b: seq<Entry>, turns: seq<TurnId>, j: nat, t: TurnId, f: nat)
    requires PairAt(FinalIndices(b), turns, j, t, f)
    ensures var k := Min(|FinalIndices(b)|, |turns|);
            var view := Mapped(b[..f + 1], turns[..|turns| - k + j + 1]);
            && FinalIndices(b[..f + 1]) == FinalIndices(b)[..|FinalIndices(b)| - k + j + 1]
            && view != [] && view <= Mapped(b, turns)
            && view[|view| - 1] == View(b, f, t, Assistant)
  {
    hide PairedView, TailView, FinalIndices;
    var fs := FinalIndices(b);
    FinalIndicesCut(b, |fs| - Min(|fs|, |turns|) + j);
    TailViewCut(b, fs, turns, j, t, f);
  }

  /** A turn that completes with one final message extends the view and becomes its last pair. */
  lemma MappedComplete(b: seq<Entry>, turns: seq<TurnId>, ext: seq<Entry>, t: TurnId)
    requires |FinalIndices(ext)| == 1
    ensures FinalIndices(b + ext) == FinalIndices(b) + [|b| + FinalIndices(ext)[0]]
    ensures Mapped(b, turns) <= Mapped(b + ext, turns + [t])
  {
    hide PairedView, TailView, FinalIndices;
    FinalIndicesAppend(b, ext);
    assert Shift(FinalIndices(ext), |b|) == [|b| + FinalIndices(ext)[0]];
    TailViewGrow(b, FinalIndices(b), turns, ext, |b| + FinalIndices(ext)[0], t);
  }

  /** Entries without a final message, as a failed turn leaves them, change nothing in the view. */
  lemma MappedNoFinal(b: seq<Entry>, turns: seq<TurnId>, ext: seq<Entry>)
    requires FinalIndices(ext) == []
    ensures FinalIndices(b + ext) == FinalIndices(b)
    ensures Mapped(b + ext, turns) == Mapped(b, turns)
  {
    hide PairedView, TailView, FinalIndices;
    FinalIndicesAppend(b, ext);
    assert FinalIndices(b + ext) == FinalIndices(b);
    TailViewStay(b, FinalIndices(b), turns, ext);
  }

  // ------------------------------------------------------------------ targets of fork and prune

  lemma {:induction false} PairedFinal(b: seq<Entry>, fs: seq<nat>, d: nat, ts: seq<TurnId>, e: nat, n: nat, i: nat)
    returns (j: nat)
    requires Indices(fs, |b|) && d + n <= |fs| && e + n <= |ts|
    requires i < |PairedView(b, fs, d, ts, e, n)| && PairedView(b, fs, d, ts, e, n)[i].finalAssistant
    ensures j < n && PairedView(b, fs, d, ts, e, n)[i] == View(b, fs[d + j], ts[e + j], Assistant)
  {
    hide FirstUser;
    var before := PairedView(b, fs, d, ts, e, n - 1);
    if i < |before| {
      j := PairedFinal(b, fs, d, ts, e, n - 1, i);
    } else {
      j := n - 1;
    }
  }

  /** The search for a fork or prune target succeeds exactly on the anchors of the view. */
  lemma TargetsAreAnchors(b: seq<Entry>, turns: seq<TurnId>, t: TurnId, e: EntryId)
    ensures FindTarget(Mapped(b, turns), t, e).Some? <==> IsAnchor(b, turns, t, e)
  {
    hide PairedView, FinalIndices, TurnView, FindTarget;
    var fs, view := FinalIndices(b), Mapped(b, turns);
    var k := Min(|fs|, |turns|);
    var d, c := |fs| - k, |turns| - k;
    var found := FindTarget(view, t, e);
    if found.Some? {
      var j := PairedFinal(b, fs, d, turns, c, k, found.value);
      assert PairAt(fs, turns, j, t, fs[d + j]) && b[fs[d + j]].id == e;
    }
    if IsAnchor(b, turns, t, e) {
      var j: nat, f: nat :| PairAt(fs, turns, j, t, f) && b[f].id == e;
      PairedViewEnd(b, fs, d, turns, c, j);
      PairedViewPrefix(b, fs, d, turns, c, j + 1, k);
      var n := |PairedView(b, fs, d, turns, c, j + 1)| - 1;
      assert view[n] == View(b, f, t, Assistant);
      assert Targets(view[n], t, e);
    }
  }

  /** The entries of a view come from the branch, in branch order and without repeats. */
  ghost predicate InBranchOrder(b: seq<Entry>, view: seq<MappedEntry>) {
    && (forall i :: 0 <= i < |view| ==> view[i].index < |b| && view[i].entryId == b[view[i].index].id)
    && (forall i, j :: 0 <= i < j < |view| ==> view[i].index < view[j].index)
  }

  predicate Within(view: seq<MappedEntry>, lo: nat, hi: nat) {
    forall i :: 0 <= i < |view| ==> lo <= view[i].index < hi
  }

  lemma OrderedAppend(b: seq<Entry>, v: seq<MappedEntry>, w: seq<MappedEntry>, mid: nat, hi: nat)
    requires InBranchOrder(b, v) && Within(v, 0, mid)
    requires InBranchOrder(b, w) && Within(w, mid, hi) && mid <= hi
    ensures InBranchOrder(b, v + w) && Within(v + w, 0, hi)
  {
  }

  lemma TurnViewOrdered(b: seq<Entry>, lo: nat, f: nat, turn: TurnId)
    requires lo <= f < |b|
    ensures InBranchOrder(b, TurnView(b, lo, f, turn)) && Within(TurnView(b, lo, f, turn), lo, f + 1)
  {
    hide FirstUser;
  }

  lemma {:induction false} PairedViewOrdered(b: seq<Entry>, fs: seq<nat>, d: nat, ts: seq<TurnId>, e: nat, n: nat)
    requires Indices(fs, |b|) && d + n <= |fs| && e + n <= |ts|
    ensures InBranchOrder(b, PairedView(b, fs, d, ts, e, n))
    ensures Within(PairedView(b, fs, d, ts, e, n), 0, if n == 0 then 0 else fs[d + n - 1] + 1)
  {
    hide TurnView, InBranchOrder, Within;
    if n > 0 {
      var lo, f := SegmentStart(fs, d, n - 1), fs[d + n - 1];
      PairedViewOrdered(b, fs, d, ts, e, n - 1);
      TurnViewOrdered(b, lo, f, ts[e + n - 1]);
      OrderedAppend(b, PairedView(b, fs, d, ts, e, n - 1), TurnView(b, lo, f, ts[e + n - 1]), lo, f + 1);
    } else {
      NothingOrdered(b);
    }
  }

  lemma NothingOrdered(b: seq<Entry>)
    ensures InBranchOrder(b, []) && Within([], 0, 0)
  {
  }

  lemma MappedOrdered(b: seq<Entry>, turns: seq<TurnId>)
    ensures InBranchOrder(b, Mapped(b, turns))
  {
    hide PairedView, FinalIndices;
    var fs := FinalIndices(b);
    var k := Min(|fs|, |turns|);
    PairedViewOrdered(b, fs, |fs| - k, turns, |turns| - k, k);
  }

  // ------------------------------------------------------------------ what is shown, and nothing else

  /** The finals are the assistant messages that have settled: not for a tool, an error or an abort, and not pending. */
  lemma FinalsExactly(b: seq<Entry>, i: nat)
    ensures i in FinalIndices(b) <==>
            i < |b| && b[i].kind == MessageEntry && b[i].message.Some? &&
            b[i].message.value.role == Assistant && b[i].message.value.stopReason == Some(Settled)
  {
    if i < |b| && IsFinal(b[i]) {
      var c := FinalIndicesComplete(b, i);
    }
    hide FinalIndices;
  }

  /** `m` is entry `i` of the branch as it is shown in turn `t`. */
  ghost predicate Shows(m: MappedEntry, b: seq<Entry>, i: nat, t: TurnId, role: Role) {
    && i < |b| && m.index == i && m.entryId == b[i].id && m.parentEntryId == b[i].parentId && m.createdAt == b[i].timestamp
    && m.turnId == t && m.role == role && (m.finalAssistant <==> role == Assistant)
    && m.text == if b[i].message.Some? then b[i].message.value.text else ""
  }

  /** Entry `u` is the first user message from `lo` on, before `hi`. */
  ghost predicate OpensAt(b: seq<Entry>, lo: nat, hi: nat, u: nat) {
    && lo <= u < hi <= |b| && SaidByUser(b[u])
    && forall i :: lo <= i < u ==> !SaidByUser(b[i])
  }

  ghost predicate SaidByUser(e: Entry) {
    e.kind == MessageEntry && exists m: Message :: e.message == Some(m) && m.role == User
  }

  lemma ShowsIsView(m: MappedEntry, b: seq<Entry>, i: nat, t: TurnId, role: Role)
    requires i < |b|
    ensures Shows(m, b, i, t, role) <==> m == View(b, i, t, role)
  {
  }

  lemma {:induction false} FirstUserOpens(b: seq<Entry>, lo: nat, hi: nat, u: nat)
    requires lo <= hi <= |b|
    ensures FirstUser(b, lo, hi) == Some(u) <==> OpensAt(b, lo, hi, u)
    decreases hi - lo
  {
    if lo < hi && !IsUser(b[lo]) {
      FirstUserOpens(b, lo + 1, hi, u);
    }
  }

  /** The turn whose final is at `f` and whose part of the branch starts at `lo` shows `m`. */
  ghost predicate ShownIn(m: MappedEntry, b: seq<Entry>, lo: nat, f: nat, t: TurnId) {
    Shows(m, b, f, t, Assistant) || exists u: nat :: OpensAt(b, lo, f, u) && Shows(m, b, u, t, User)
  }

  lemma TurnViewShows(b: seq<Entry>, lo: nat, f: nat, t: TurnId, m: MappedEntry)
    requires lo <= f < |b|
    ensures m in TurnView(b, lo, f, t) <==> ShownIn(m, b, lo, f, t)
  {
    hide FirstUser, View, Shows, OpensAt;
    forall u: nat | u < |b|
      ensures FirstUser(b, lo, f) == Some(u) <==> OpensAt(b, lo, f, u)
      ensures Shows(m, b, u, t, User) <==> m == View(b, u, t, User)
    {
      FirstUserOpens(b, lo, f, u);
      ShowsIsView(m, b, u, t, User);
    }
    ShowsIsView(m, b, f, t, Assistant);
    OpensWithin(b, lo, f);
  }

  lemma OpensWithin(b: seq<Entry>, lo: nat, hi: nat)
    ensures forall u: nat :: OpensAt(b, lo, hi, u) ==> u < |b|
  {
  }

  lemma {:induction false} PairedViewShows(b: seq<Entry>, fs: seq<nat>, d: nat, ts: seq<TurnId>, e: nat, n: nat,
                                           m: MappedEntry)
    requires Indices(fs, |b|) && d + n <= |fs| && e + n <= |ts|
    ensures m in PairedView(b, fs, d, ts, e, n) <==>
            exists j: nat :: j < n && ShownIn(m, b, SegmentStart(fs, d, j), fs[d + j], ts[e + j])
  {
    hide TurnView, ShownIn;
    if n > 0 {
      PairedViewShows(b, fs, d, ts, e, n - 1, m);
      TurnViewShows(b, SegmentStart(fs, d, n - 1), fs[d + n - 1], ts[e + n - 1], m);
    }
  }

  /** Where the part of the branch that belongs to the `j`-th pair starts: right after the final before it. */
  ghost function PairStart(b: seq<Entry>, turns: seq<TurnId>, j: nat): nat
    requires j < Min(|FinalIndices(b)|, |turns|)
  {
    var fs := FinalIndices(b);
    if j == 0 then 0 else fs[|fs| - Min(|fs|, |turns|) + j - 1] + 1
  }

  ghost predicate ShownByPair(m: MappedEntry, b: seq<Entry>, turns: seq<TurnId>, j: nat, t: TurnId, f: nat) {
    PairAt(FinalIndices(b), turns, j, t, f) && ShownIn(m, b, PairStart(b, turns, j), f, t)
  }

  /**
   The view consists of exactly the final message of each pair and the first user message, if there
   is one, between it and the pair before, each as it stands in the branch and under its pair's turn.
   */
  lemma MappedShows(b: seq<Entry>, turns: seq<TurnId>, m: MappedEntry)
    ensures m in Mapped(b, turns) <==> exists j: nat, t, f: nat :: ShownByPair(m, b, turns, j, t, f)
  {
    hide FinalIndices, ShownIn, PairedView;
    var fs := FinalIndices(b);
    var k := Min(|fs|, |turns|);
    var d, e := |fs| - k, |turns| - k;
    PairedViewShows(b, fs, d, turns, e, k, m);
    if m in Mapped(b, turns) {
      var j: nat :| j < k && ShownIn(m, b, SegmentStart(fs, d, j), fs[d + j], turns[e + j]);
      assert ShownByPair(m, b, turns, j, turns[e + j], fs[d + j]);
    }
    if exists j: nat, t, f: nat :: ShownByPair(m, b, turns, j, t, f) {
      var j: nat, t, f: nat :| ShownByPair(m, b, turns, j, t, f);
      assert ShownIn(m, b, SegmentStart(fs, d, j), fs[d + j], turns[e + j]);
    }
  }
}
