/**
 One conversation session: its entry tree with a movable leaf, its turns in mailbox order,
 and what completing, failing and pruning turns does to its branch and to its fork anchors.
 */
module Sessions {
  import opened Common
  import opened Branches
  import opened MappedEntries
  import SM = StateMachines

  type SessionId = nat

  datatype Turn = Turn(id: TurnId, position: nat, state: SM.TurnState, pruned: bool)

  datatype ForkPoint = ForkPoint(parent: SessionId, turn: TurnId, entry: EntryId)

  datatype Session = Session(
    serial: nat,
    fork: Option<ForkPoint>,
    archived: bool,
    state: SM.SessionState,
    entries: EntryTable,
    leaf: Option<EntryId>,
    turns: seq<Turn>)

  // ------------------------------------------------------------------ what is read from a session

  predicate Visible(turn: Turn) {
    turn.state.Completed? && !turn.pruned
  }

  /** The completed, unpruned turns, in mailbox order. */
  function CompletedTurns(turns: seq<Turn>): seq<TurnId> {
    if turns == [] then []
    else
      var n := |turns| - 1;
      CompletedTurns(turns[..n]) + if Visible(turns[n]) then [turns[n].id] else []
  }

  function Lookup(turns: seq<Turn>, t: TurnId): (r: Option<nat>)
    ensures r.Some? ==> r.value < |turns| && turns[r.value].id == t
    ensures r.None? ==> forall i :: 0 <= i < |turns| ==> turns[i].id != t
  {
    if turns == [] then None
    else match Lookup(turns[..|turns| - 1], t)
         case Some(i) => Some(i)
         case None => if turns[|turns| - 1].id == t then Some(|turns| - 1) else None
  }

  function ForkEntry(s: Session): Option<EntryId> {
    match s.fork
    case Some(f) => Some(f.entry)
    case None => None
  }

  function OwnOf(s: Session): Result<seq<Entry>, TreeError> {
    match ActiveBranch(s.entries, s.leaf)
    case Ok(b) => OwnBranch(b, ForkEntry(s))
    case Err(e) => Err(e)
  }

  function ViewOf(s: Session): Result<seq<MappedEntry>, TreeError> {
    match OwnOf(s)
    case Ok(b) => Ok(Mapped(b, CompletedTurns(s.turns)))
    case Err(e) => Err(e)
  }

  predicate Unsettled(turns: seq<Turn>, skipPruned: bool) {
    exists i :: 0 <= i < |turns| && !SM.TerminalTurn(turns[i].state) && !(skipPruned && turns[i].pruned)
  }

  predicate Quiet(s: Session) {
    s.state.Cold? || s.state.Idle? || s.state.Failed?
  }

  // ------------------------------------------------------------------ steps on one session

  function Extend(rows: EntryTable, ext: seq<Entry>): EntryTable {
    if ext == [] then rows
    else
      var n := |ext| - 1;
      Extend(rows, ext[..n])[ext[n].id := ext[n]]
  }

  function LeafAfter(leaf: Option<EntryId>, ext: seq<Entry>): Option<EntryId> {
    if ext == [] then leaf else Some(ext[|ext| - 1].id)
  }

  /** New entries are appended at the leaf, each under the one before it, with fresh identifiers. */
  predicate Appendable(rows: EntryTable, leaf: Option<EntryId>, ext: seq<Entry>) {
    ext == [] ||
    var n := |ext| - 1;
    && Appendable(rows, leaf, ext[..n])
    && ext[n].id !in Extend(rows, ext[..n])
    && ext[n].parentId == LeafAfter(leaf, ext[..n])
  }

  /** What the worker may report for an unsettled turn: one final message if it completed, none otherwise. */
  predicate CanSettle(s: Session, i: nat, outcome: SM.TurnState, ext: seq<Entry>) {
    && i < |s.turns| && !SM.TerminalTurn(s.turns[i].state) && SM.TerminalTurn(outcome)
    && Appendable(s.entries, s.leaf, ext)
    && (outcome.Completed? ==>
          |FinalIndices(ext)| == 1 && forall j :: i < j < |s.turns| ==> !s.turns[j].state.Completed?)
    && (!outcome.Completed? ==> FinalIndices(ext) == [])
  }

  function Settle(s: Session, i: nat, outcome: SM.TurnState, ext: seq<Entry>): Session
    requires i < |s.turns|
  {
    s.(turns := s.turns[i := s.turns[i].(state := outcome)],
       entries := Extend(s.entries, ext),
       leaf := LeafAfter(s.leaf, ext),
       state := SM.SessionState.Idle)
  }

  function PruneTurns(turns: seq<Turn>, position: nat): seq<Turn> {
    seq(|turns|, i requires 0 <= i < |turns| =>
      if turns[i].position > position then turns[i].(pruned := true) else turns[i])
  }

  function Prune(s: Session, entry: EntryId, position: nat): Session {
    s.(turns := PruneTurns(s.turns, position), leaf := Some(entry), state := SM.SessionState.Idle)
  }

  // ------------------------------------------------------------------ invariant of one session

  ghost predicate TurnsOk(turns: seq<Turn>) {
    && (forall i, j :: 0 <= i < j < |turns| ==> turns[i].id != turns[j].id && turns[i].position < turns[j].position)
    && (forall i :: 0 <= i < |turns| && turns[i].pruned ==> SM.TerminalTurn(turns[i].state))
  }

  ghost predicate SessionOk(s: Session) {
    && WellKeyed(s.entries)
    && ActiveBranch(s.entries, s.leaf).Ok?
    && OwnOf(s).Ok?
    && TurnsOk(s.turns)
  }

  ghost function Branch(s: Session): seq<Entry> {
    match ActiveBranch(s.entries, s.leaf)
    case Ok(b) => b
    case Err(_) => []
  }

  ghost function Own(s: Session): seq<Entry> {
    match OwnOf(s)
    case Ok(b) => b
    case Err(_) => []
  }

  /** How much of the branch was inherited by the fork. */
  ghost function OwnStart(s: Session): nat {
    match s.fork
    case None => 0
    case Some(f) => match FindEntry(Branch(s), f.entry)
                    case Some(i) => i + 1
                    case None => 0
  }

  lemma OwnIsSuffix(s: Session)
    requires SessionOk(s)
    ensures OwnStart(s) <= |Branch(s)| && Own(s) == Branch(s)[OwnStart(s)..]
  {
  }

  /** The branch up to and including entry `e`. */
  ghost function PrefixTo(b: seq<Entry>, e: EntryId): Option<seq<Entry>> {
    match FindEntry(b, e)
    case Some(i) => Some(b[..i + 1])
    case None => None
  }

  ghost predicate AnchorOf(s: Session, t: TurnId, e: EntryId) {
    IsAnchor(Own(s), CompletedTurns(s.turns), t, e)
  }

  ghost predicate OffBranch(s: Session, e: EntryId) {
    FindEntry(Branch(s), e).None?
  }

  ghost predicate CompletedTurn(s: Session, t: TurnId) {
    Lookup(s.turns, t).Some? && s.turns[Lookup(s.turns, t).value].state.Completed?
  }

  ghost predicate PrunedTurn(s: Session, t: TurnId) {
    Lookup(s.turns, t).Some? && s.turns[Lookup(s.turns, t).value].pruned
  }

  /** What a step on one session owes to the sessions forked from it and to its own fork. */
  ghost predicate KeepsAnchors(s: Session, s': Session) {
    && s'.serial == s.serial && s'.fork == s.fork
    && (s.fork.Some? ==> PrefixTo(Branch(s'), s.fork.value.entry) == PrefixTo(Branch(s), s.fork.value.entry))
    && (forall t :: CompletedTurn(s, t) ==> CompletedTurn(s', t))
    && (forall t :: CompletedTurn(s, t) && PrunedTurn(s, t) ==> PrunedTurn(s', t))
    && (forall t, e :: AnchorOf(s, t, e) && !PrunedTurn(s', t) ==>
          AnchorOf(s', t, e) && PrefixTo(Branch(s'), e) == PrefixTo(Branch(s), e))
    && (forall t, e :: AnchorOf(s, t, e) && PrunedTurn(s', t) ==> OffBranch(s', e))
    && (forall e :: e in s.entries ==> e in s'.entries)
    && (forall e :: e in s.entries && OffBranch(s, e) ==> OffBranch(s', e))
  }

  // ------------------------------------------------------------------ lemmas on positions

  lemma {:induction false} FindInPrefix(b: seq<Entry>, n: nat, e: EntryId)
    requires n <= |b|
    requires FindEntry(b, e).Some? && FindEntry(b, e).value < n
    ensures FindEntry(b[..n], e) == FindEntry(b, e)
  {
    var i := FindEntry(b, e).value;
    assert b[..n][i].id == e;
  }

  lemma {:induction false} FindInExtension(b: seq<Entry>, ext: seq<Entry>, e: EntryId)
    requires FindEntry(b, e).Some?
    ensures FindEntry(b + ext, e) == FindEntry(b, e)
  {
    var i := FindEntry(b, e).value;
    assert (b + ext)[i].id == e;
    assert (b + ext)[..|b|] == b;
    var j := FindEntry(b + ext, e).value;
    assert j <= i && (b + ext)[j] == b[j];
  }

  lemma {:induction false} CompletedConcat(a: seq<Turn>, b: seq<Turn>)
    ensures CompletedTurns(a + b) == CompletedTurns(a) + CompletedTurns(b)
  {
    if b == [] {
      assert a + b == a;
    } else {
      var n := |b| - 1;
      assert (a + b)[..|a| + n] == a + b[..n];
      CompletedConcat(a, b[..n]);
    }
  }

  lemma {:induction false} NoneCompleted(turns: seq<Turn>)
    requires forall i :: 0 <= i < |turns| ==> !Visible(turns[i])
    ensures CompletedTurns(turns) == []
  {
    if turns != [] {
      NoneCompleted(turns[..|turns| - 1]);
    }
  }

  /** The `c`-th completed turn, and the turns up to it. */
  lemma {:induction false} CompletedAt(turns: seq<Turn>, c: nat) returns (m: nat)
    requires c < |CompletedTurns(turns)|
    ensures m < |turns| && Visible(turns[m]) && turns[m].id == CompletedTurns(turns)[c]
    ensures CompletedTurns(turns[..m + 1]) == CompletedTurns(turns)[..c + 1]
  {
    var n := |turns| - 1;
    if c < |CompletedTurns(turns[..n])| {
      m := CompletedAt(turns[..n], c);
      assert turns[..n][..m + 1] == turns[..m + 1];
    } else {
      m := n;
      assert turns[..n + 1] == turns;
    }
  }

  /** Among two completed turns the later one is later in the list of completed turns. */
  lemma CompletedOrder(turns: seq<Turn>, c: nat, m: nat, c': nat, m': nat)
    requires c < |CompletedTurns(turns)| && m < |turns|
    requires CompletedTurns(turns[..m + 1]) == CompletedTurns(turns)[..c + 1]
    requires c' < |CompletedTurns(turns)| && m' < |turns|
    requires CompletedTurns(turns[..m' + 1]) == CompletedTurns(turns)[..c' + 1]
    requires m' <= m
    ensures c' <= c
  {
    assert turns[..m + 1] == turns[..m' + 1] + turns[m' + 1..m + 1];
    CompletedConcat(turns[..m' + 1], turns[m' + 1..m + 1]);
  }

  /** Pruning after the `m`-th turn leaves exactly the completed turns up to it. */
  lemma CompletedAfterPrune(turns: seq<Turn>, m: nat)
    requires TurnsOk(turns) && m < |turns|
    ensures CompletedTurns(PruneTurns(turns, turns[m].position)) == CompletedTurns(turns[..m + 1])
  {
    var pruned := PruneTurns(turns, turns[m].position);
    assert pruned[..m + 1] == turns[..m + 1];
    NoneCompleted(pruned[m + 1..]);
    CompletedConcat(pruned[..m + 1], pruned[m + 1..]);
    assert pruned[..m + 1] + pruned[m + 1..] == pruned;
  }

  /** Settling a turn adds it at the end if it completed and nothing otherwise. */
  lemma CompletedAfterSettle(turns: seq<Turn>, i: nat, outcome: SM.TurnState)
    requires TurnsOk(turns) && i < |turns| && !SM.TerminalTurn(turns[i].state) && SM.TerminalTurn(outcome)
    requires outcome.Completed? ==> forall j :: i < j < |turns| ==> !turns[j].state.Completed?
    ensures CompletedTurns(turns[i := turns[i].(state := outcome)]) ==
            CompletedTurns(turns) + if outcome.Completed? then [turns[i].id] else []
  {
    hide CompletedTurns;
    var settled := turns[i].(state := outcome);
    CompletedUpdate(turns, i, settled);
    if outcome.Completed? {
      NoneCompleted(turns[i + 1..]);
    }
  }

  lemma CompletedUpdate(turns: seq<Turn>, i: nat, turn: Turn)
    requires i < |turns| && !Visible(turns[i])
    ensures CompletedTurns(turns) == CompletedTurns(turns[..i]) + CompletedTurns(turns[i + 1..])
    ensures CompletedTurns(turns[i := turn]) ==
            CompletedTurns(turns[..i]) + (if Visible(turn) then [turn.id] else []) + CompletedTurns(turns[i + 1..])
  {
    hide CompletedTurns;
    var before, after := turns[..i], turns[i + 1..];
    assert turns == before + [turns[i]] + after;
    assert turns[i := turn] == before + [turn] + after;
    CompletedConcat(before + [turns[i]], after);
    CompletedConcat(before, [turns[i]]);
    CompletedConcat(before + [turn], after);
    CompletedConcat(before, [turn]);
    CompletedOne(turns[i]);
    CompletedOne(turn);
  }

  lemma CompletedOne(turn: Turn)
    ensures CompletedTurns([turn]) == if Visible(turn) then [turn.id] else []
  {
    assert [turn][..0] == [];
  }

  lemma {:induction false} ExtendBranch(rows: EntryTable, leaf: Option<EntryId>, b: seq<Entry>, ext: seq<Entry>)
    requires WellKeyed(rows) && IsBranch(rows, leaf, b) && Appendable(rows, leaf, ext)
    ensures WellKeyed(Extend(rows, ext)) && IsBranch(Extend(rows, ext), LeafAfter(leaf, ext), b + ext)
  {
    if ext == [] {
      assert b + ext == b;
    } else {
      var n := |ext| - 1;
      ExtendBranch(rows, leaf, b, ext[..n]);
      var rows' := Extend(rows, ext[..n]);
      GrowBranch(rows', LeafAfter(leaf, ext[..n]), b + ext[..n], ext[n]);
      assert b + ext == b + ext[..n] + [ext[n]];
    }
  }

  lemma GrowBranch(rows: EntryTable, leaf: Option<EntryId>, b: seq<Entry>, e: Entry)
    requires IsBranch(rows, leaf, b) && e.id !in rows && e.parentId == leaf
    ensures IsBranch(rows[e.id := e], Some(e.id), b + [e])
  {
    assert IsBranch(rows[e.id := e], leaf, b);
    BranchSnoc(rows[e.id := e], leaf, b, e);
  }

  // ------------------------------------------------------------------ settling a turn

  lemma LookupUpdate(turns: seq<Turn>, i: nat, turn: Turn, t: TurnId)
    requires TurnsOk(turns) && i < |turns| && turn.id == turns[i].id
    ensures Lookup(turns[i := turn], t) == Lookup(turns, t)
  {
    hide Lookup;
    var turns' := turns[i := turn];
    assert forall j :: 0 <= j < |turns| ==> turns'[j].id == turns[j].id;
    if Lookup(turns, t).Some? {
      assert turns'[Lookup(turns, t).value].id == t;
    }
    if Lookup(turns', t).Some? {
      assert turns[Lookup(turns', t).value].id == t;
    }
  }

  lemma PairGrows(fs: seq<nat>, turns: seq<TurnId>, f': nat, t': TurnId, j: nat, t: TurnId, f: nat)
    requires PairAt(fs, turns, j, t, f)
    ensures PairAt(fs + [f'], turns + [t'], j, t, f)
  {
  }

  /** Appending entries at the leaf, with the turn that wrote them, keeps every anchor where it is. */
  lemma SettleBranch(s: Session, i: nat, outcome: SM.TurnState, ext: seq<Entry>)
    requires SessionOk(s) && CanSettle(s, i, outcome, ext)
    ensures var s' := Settle(s, i, outcome, ext);
            && WellKeyed(s'.entries)
            && ActiveBranch(s'.entries, s'.leaf) == Ok(Branch(s) + ext)
            && OwnOf(s') == Ok(Own(s) + ext)
            && Branch(s') == Branch(s) + ext && Own(s') == Own(s) + ext
  {
    hide Extend, Appendable, FindEntry;
    var s' := Settle(s, i, outcome, ext);
    var b := Branch(s);
    ActiveBranchIsTheBranch(s.entries, s.leaf, b);
    ExtendBranch(s.entries, s.leaf, b, ext);
    ActiveBranchIsTheBranch(s'.entries, s'.leaf, b + ext);
    if s.fork.Some? {
      FindInExtension(b, ext, s.fork.value.entry);
      var n := FindEntry(b, s.fork.value.entry).value + 1;
      assert (b + ext)[n..] == b[n..] + ext;
    }
  }

  lemma SettleTurns(s: Session, i: nat, outcome: SM.TurnState)
    requires TurnsOk(s.turns) && i < |s.turns| && !SM.TerminalTurn(s.turns[i].state) && SM.TerminalTurn(outcome)
    ensures TurnsOk(s.turns[i := s.turns[i].(state := outcome)])
  {
  }

  lemma SettleKeepsAnchor(b: seq<Entry>, turns: seq<TurnId>, ext: seq<Entry>, add: seq<TurnId>, t: TurnId, e: EntryId)
    requires if add == [] then FinalIndices(ext) == [] else |add| == 1 && |FinalIndices(ext)| == 1
    requires IsAnchor(b, turns, t, e)
    ensures IsAnchor(b + ext, turns + add, t, e)
    ensures FindEntry(b, e).Some?
  {
    hide FinalIndices, FindEntry;
    var j: nat, f: nat :| PairAt(FinalIndices(b), turns, j, t, f) && b[f].id == e;
    assert (b + ext)[f].id == e;
    if add == [] {
      MappedNoFinal(b, turns, ext);
      assert turns + add == turns;
    } else {
      MappedComplete(b, turns, ext, add[0]);
      PairGrows(FinalIndices(b), turns, |b| + FinalIndices(ext)[0], add[0], j, t, f);
      assert turns + add == turns + [add[0]];
    }
    assert PairAt(FinalIndices(b + ext), turns + add, j, t, f);
  }

  lemma {:induction false} ExtendFresh(rows: EntryTable, leaf: Option<EntryId>, ext: seq<Entry>)
    requires Appendable(rows, leaf, ext)
    ensures forall e :: e in rows ==> e in Extend(rows, ext)
    ensures forall i :: 0 <= i < |ext| ==> ext[i].id !in rows
  {
    if ext != [] {
      ExtendFresh(rows, leaf, ext[..|ext| - 1]);
    }
  }

  lemma StaysOff(b: seq<Entry>, ext: seq<Entry>, e: EntryId)
    requires FindEntry(b, e).None? && forall i :: 0 <= i < |ext| ==> ext[i].id != e
    ensures FindEntry(b + ext, e).None?
  {
    hide FindEntry;
  }

  lemma SettleOk(s: Session, i: nat, outcome: SM.TurnState, ext: seq<Entry>)
    requires SessionOk(s) && CanSettle(s, i, outcome, ext)
    ensures SessionOk(Settle(s, i, outcome, ext)) && KeepsAnchors(s, Settle(s, i, outcome, ext))
  {
    hide Extend, Appendable, FindEntry, FinalIndices, CompletedTurns, IsAnchor, Lookup, ActiveBranch, LeafAfter;
    var s' := Settle(s, i, outcome, ext);
    SettleBranch(s, i, outcome, ext);
    SettleTurns(s, i, outcome);
    CompletedAfterSettle(s.turns, i, outcome);
    var add := if outcome.Completed? then [s.turns[i].id] else [];
    forall t
      ensures CompletedTurn(s, t) ==> CompletedTurn(s', t)
      ensures PrunedTurn(s, t) ==> PrunedTurn(s', t)
    {
      LookupUpdate(s.turns, i, s'.turns[i], t);
    }
    forall t, e | AnchorOf(s, t, e)
      ensures AnchorOf(s', t, e) && PrefixTo(Branch(s'), e) == PrefixTo(Branch(s), e)
    {
      SettleKeepsAnchor(Own(s), CompletedTurns(s.turns), ext, add, t, e);
      OwnInBranch(s, e);
      PrefixExtends(Branch(s), ext, e);
    }
    if s.fork.Some? {
      PrefixExtends(Branch(s), ext, s.fork.value.entry);
    }
    ExtendFresh(s.entries, s.leaf, ext);
    forall e | e in s.entries && OffBranch(s, e)
      ensures OffBranch(s', e)
    {
      StaysOff(Branch(s), ext, e);
    }
    forall t | CompletedTurn(s, t)
      ensures PrunedTurn(s', t) ==> PrunedTurn(s, t)
    {
      LookupUpdate(s.turns, i, s'.turns[i], t);
    }
    forall t, e | AnchorOf(s, t, e)
      ensures !PrunedTurn(s', t)
    {
      var m, c, j, f := AnchorPlace(s, t, e);
      LookupUpdate(s.turns, i, s'.turns[i], t);
    }
  }

  lemma OwnInBranch(s: Session, e: EntryId)
    requires SessionOk(s) && FindEntry(Own(s), e).Some?
    ensures FindEntry(Branch(s), e).Some?
    ensures FindEntry(Branch(s), e).value <= OwnStart(s) + FindEntry(Own(s), e).value
  {
    hide FindEntry;
    OwnIsSuffix(s);
    var i := FindEntry(Own(s), e).value;
    assert Branch(s)[OwnStart(s) + i].id == e;
  }

  lemma PrefixExtends(b: seq<Entry>, ext: seq<Entry>, e: EntryId)
    requires FindEntry(b, e).Some?
    ensures PrefixTo(b + ext, e) == PrefixTo(b, e)
  {
    FindInExtension(b, ext, e);
    var n := FindEntry(b, e).value + 1;
    assert (b + ext)[..n] == b[..n];
  }

  lemma PrefixCut(b: seq<Entry>, n: nat, e: EntryId)
    requires n <= |b| && FindEntry(b, e).Some? && FindEntry(b, e).value < n
    ensures PrefixTo(b[..n], e) == PrefixTo(b, e)
  {
    FindInPrefix(b, n, e);
    var i := FindEntry(b, e).value + 1;
    assert b[..n][..i] == b[..i];
  }

  // ------------------------------------------------------------------ pruning

  lemma LookupPruned(turns: seq<Turn>, position: nat, t: TurnId)
    requires TurnsOk(turns)
    ensures Lookup(PruneTurns(turns, position), t) == Lookup(turns, t)
  {
    hide Lookup;
    var pruned := PruneTurns(turns, position);
    assert forall j :: 0 <= j < |turns| ==> pruned[j].id == turns[j].id;
    if Lookup(turns, t).Some? {
      assert pruned[Lookup(turns, t).value].id == t;
    }
    if Lookup(pruned, t).Some? {
      assert turns[Lookup(pruned, t).value].id == t;
    }
  }

  /** `Pruned(s, t, e)`: the turn of a mapped anchor, the pair it is and the place of its final message. */
  lemma AnchorPlace(s: Session, t: TurnId, e: EntryId) returns (m: nat, c: nat, j: nat, f: nat)
    requires TurnsOk(s.turns) && AnchorOf(s, t, e)
    ensures Lookup(s.turns, t) == Some(m) && Visible(s.turns[m])
    ensures f < |Own(s)| && Own(s)[f].id == e && PairAt(FinalIndices(Own(s)), CompletedTurns(s.turns), j, t, f)
    ensures c == |CompletedTurns(s.turns)| - Min(|FinalIndices(Own(s))|, |CompletedTurns(s.turns)|) + j
    ensures c < |CompletedTurns(s.turns)| && CompletedTurns(s.turns[..m + 1]) == CompletedTurns(s.turns)[..c + 1]
  {
    hide FinalIndices, CompletedTurns, Lookup;
    var fs, turns := FinalIndices(Own(s)), CompletedTurns(s.turns);
    j, f :| PairAt(fs, turns, j, t, f) && Own(s)[f].id == e;
    c := |turns| - Min(|fs|, |turns|) + j;
    m := CompletedAt(s.turns, c);
    var l := Lookup(s.turns, t).value;
    assert s.turns[l].id == s.turns[m].id;
  }

  /** Where pruning at a mapped anchor leaves the session: everything up to the anchor and nothing more. */
  lemma PruneBranch(s: Session, e: EntryId, m: nat, c: nat, f: nat)
    requires SessionOk(s) && m < |s.turns| && !Unsettled(s.turns, true)
    requires f < |Own(s)| && Own(s)[f].id == e
    requires c < |CompletedTurns(s.turns)| && CompletedTurns(s.turns[..m + 1]) == CompletedTurns(s.turns)[..c + 1]
    ensures var s' := Prune(s, e, s.turns[m].position);
            && SessionOk(s')
            && Branch(s') == Branch(s)[..OwnStart(s) + f + 1]
            && Own(s') == Own(s)[..f + 1]
            && CompletedTurns(s'.turns) == CompletedTurns(s.turns)[..c + 1]
            && OwnStart(s') == OwnStart(s)
  {
    hide FinalIndices, CompletedTurns, Lookup, FindEntry, ActiveBranch, PruneTurns, TurnsOk, Unsettled, IsBranch;
    var s' := Prune(s, e, s.turns[m].position);
    var b, n := Branch(s), OwnStart(s);
    OwnIsSuffix(s);
    assert b[n + f].id == e;
    ActiveBranchIsTheBranch(s.entries, s.leaf, b);
    BranchPrefix(s.entries, s.leaf, b, n + f);
    ActiveBranchIsTheBranch(s.entries, Some(e), b[..n + f + 1]);
    if s.fork.Some? {
      FindInPrefix(b, n + f + 1, s.fork.value.entry);
    }
    assert b[..n + f + 1][n..] == b[n..][..f + 1];
    CompletedAfterPrune(s.turns, m);
    PruneTurnsOk(s.turns, s.turns[m].position);
  }

  lemma PruneTurnsOk(turns: seq<Turn>, position: nat)
    requires TurnsOk(turns) && !Unsettled(turns, true)
    ensures TurnsOk(PruneTurns(turns, position))
  {
  }

  lemma PairCut(fs: seq<nat>, turns: seq<TurnId>, j: nat, t: TurnId, f: nat, j': nat, t': TurnId, f': nat)
    requires PairAt(fs, turns, j, t, f) && j' <= j && PairAt(fs, turns, j', t', f')
    ensures var k := Min(|fs|, |turns|);
            PairAt(fs[..|fs| - k + j + 1], turns[..|turns| - k + j + 1], j', t', f')
  {
  }

  /** An anchor whose turn survives the prune survives it too, in the same place. */
  lemma PruneKeepsAnchor(s: Session, t: TurnId, e: EntryId, t': TurnId, e': EntryId)
    requires SessionOk(s) && AnchorOf(s, t, e) && Lookup(s.turns, t).Some? && !Unsettled(s.turns, true)
    requires AnchorOf(s, t', e')
    requires !PrunedTurn(Prune(s, e, s.turns[Lookup(s.turns, t).value].position), t')
    ensures AnchorOf(Prune(s, e, s.turns[Lookup(s.turns, t).value].position), t', e')
    ensures PrefixTo(Branch(Prune(s, e, s.turns[Lookup(s.turns, t).value].position)), e') == PrefixTo(Branch(s), e')
  {
    hide FinalIndices, CompletedTurns, Lookup, FindEntry, ActiveBranch, IsAnchor, OwnOf, Branch, Own, OwnStart,
      PrefixTo;
    var m, c, j, f := AnchorPlace(s, t, e);
    var m', c', j', f' := AnchorPlace(s, t', e');
    PruneBranch(s, e, m, c, f);
    LookupPruned(s.turns, s.turns[m].position, t');
    assert m' <= m;
    CompletedOrder(s.turns, c, m, c', m');
    assert f' <= f;
    CutAnchor(Own(s), CompletedTurns(s.turns), j, t, f, j', t', f', e');
    EntryAt(Own(s), f', e');
    OwnInBranch(s, e');
    OwnIsSuffix(s);
    PrefixCut(Branch(s), OwnStart(s) + f + 1, e');
  }

  /** An anchor whose turn is pruned is off the branch afterwards. */
  lemma PruneDropsAnchor(s: Session, t: TurnId, e: EntryId, t': TurnId, e': EntryId)
    requires SessionOk(s) && AnchorOf(s, t, e) && Lookup(s.turns, t).Some? && !Unsettled(s.turns, true)
    requires AnchorOf(s, t', e')
    requires PrunedTurn(Prune(s, e, s.turns[Lookup(s.turns, t).value].position), t')
    ensures OffBranch(Prune(s, e, s.turns[Lookup(s.turns, t).value].position), e')
  {
    hide FinalIndices, CompletedTurns, Lookup, FindEntry, ActiveBranch, IsAnchor, OwnOf, Branch, Own, OwnStart,
      PrefixTo;
    var m, c, j, f := AnchorPlace(s, t, e);
    var m', c', j', f' := AnchorPlace(s, t', e');
    PruneBranch(s, e, m, c, f);
    LookupPruned(s.turns, s.turns[m].position, t');
    assert m < m';
    CompletedOrder(s.turns, c', m', c, m);
    assert c != c';
    assert f < f';
    OwnIsSuffix(s);
    CutDrops(s, OwnStart(s) + f + 1, OwnStart(s) + f', e');
  }

  lemma CutDrops(s: Session, n: nat, i: nat, e: EntryId)
    requires SessionOk(s) && n <= i < |Branch(s)| && Branch(s)[i].id == e
    ensures FindEntry(Branch(s)[..n], e).None?
  {
    hide FindEntry, ActiveBranch;
    var b := Branch(s);
    ActiveBranchIsTheBranch(s.entries, s.leaf, b);
    if FindEntry(b[..n], e).Some? {
      BranchIdsDistinct(s.entries, s.leaf, b, FindEntry(b[..n], e).value, i);
    }
  }

  lemma CutAnchor(b: seq<Entry>, turns: seq<TurnId>, j: nat, t: TurnId, f: nat, j': nat, t': TurnId, f': nat,
                  e': EntryId)
    requires PairAt(FinalIndices(b), turns, j, t, f) && PairAt(FinalIndices(b), turns, j', t', f') && j' <= j
    requires b[f'].id == e'
    ensures f' <= f
    ensures IsAnchor(b[..f + 1], turns[..|turns| - Min(|FinalIndices(b)|, |turns|) + j + 1], t', e')
  {
    hide FinalIndices, Mapped;
    MappedCut(b, turns, j, t, f);
    PairCut(FinalIndices(b), turns, j, t, f, j', t', f');
    AnchorIntro(b[..f + 1], turns[..|turns| - Min(|FinalIndices(b)|, |turns|) + j + 1], j', t', f', e');
  }

  lemma AnchorIntro(b: seq<Entry>, turns: seq<TurnId>, j: nat, t: TurnId, f: nat, e: EntryId)
    requires PairAt(FinalIndices(b), turns, j, t, f) && b[f].id == e
    ensures IsAnchor(b, turns, t, e)
  {
  }

  lemma EntryAt(b: seq<Entry>, i: nat, e: EntryId)
    requires i < |b| && b[i].id == e
    ensures FindEntry(b, e).Some? && FindEntry(b, e).value <= i
  {
  }

  /** The pruned session itself is well formed, and nothing off the branch comes back onto it. */
  lemma PruneInside(s: Session, t: TurnId, e: EntryId)
    requires SessionOk(s) && AnchorOf(s, t, e) && Lookup(s.turns, t).Some? && !Unsettled(s.turns, true)
    ensures var s' := Prune(s, e, s.turns[Lookup(s.turns, t).value].position);
            && SessionOk(s')
            && (forall e' :: OffBranch(s, e') ==> OffBranch(s', e'))
            && (s.fork.Some? ==> PrefixTo(Branch(s'), s.fork.value.entry) == PrefixTo(Branch(s), s.fork.value.entry))
  {
    hide FinalIndices, CompletedTurns, Lookup, FindEntry, ActiveBranch, IsAnchor, OwnOf;
    var m, c, j, f := AnchorPlace(s, t, e);
    var s' := Prune(s, e, s.turns[m].position);
    PruneBranch(s, e, m, c, f);
    OwnIsSuffix(s);
    forall e' | OffBranch(s, e')
      ensures OffBranch(s', e')
    {
      CutStaysOff(Branch(s), OwnStart(s) + f + 1, e');
    }
    if s.fork.Some? {
      ForkEntryInherited(s);
      PrefixCut(Branch(s), OwnStart(s) + f + 1, s.fork.value.entry);
    }
  }

  lemma PruneOk(s: Session, t: TurnId, e: EntryId)
    requires SessionOk(s) && AnchorOf(s, t, e) && Lookup(s.turns, t).Some? && !Unsettled(s.turns, true)
    ensures var s' := Prune(s, e, s.turns[Lookup(s.turns, t).value].position);
            SessionOk(s') && KeepsAnchors(s, s')
  {
    assert TurnsOk(s.turns);
    hide SessionOk, TurnsOk, AnchorOf, OffBranch, Branch, Unsettled, Lookup, PruneTurns;
    var s' := Prune(s, e, s.turns[Lookup(s.turns, t).value].position);
    PruneInside(s, t, e);
    forall t'
      ensures CompletedTurn(s, t') ==> CompletedTurn(s', t')
      ensures PrunedTurn(s, t') ==> PrunedTurn(s', t')
    {
      LookupPruned(s.turns, s.turns[Lookup(s.turns, t).value].position, t');
    }
    forall t', e' | AnchorOf(s, t', e') && !PrunedTurn(s', t')
      ensures AnchorOf(s', t', e') && PrefixTo(Branch(s'), e') == PrefixTo(Branch(s), e')
    {
      PruneKeepsAnchor(s, t, e, t', e');
    }
    forall t', e' | AnchorOf(s, t', e') && PrunedTurn(s', t')
      ensures OffBranch(s', e')
    {
      PruneDropsAnchor(s, t, e, t', e');
    }
  }

  lemma CutStaysOff(b: seq<Entry>, n: nat, e: EntryId)
    requires n <= |b| && FindEntry(b, e).None?
    ensures FindEntry(b[..n], e).None?
  {
    hide FindEntry;
    assert forall i :: 0 <= i < n ==> b[..n][i] == b[i];
  }

  lemma ForkEntryInherited(s: Session)
    requires SessionOk(s) && s.fork.Some?
    ensures FindEntry(Branch(s), s.fork.value.entry) == Some(OwnStart(s) - 1) && OwnStart(s) > 0
  {
  }

  /**
   Prune is prefix: after pruning to a mapped final message, the view recomputed from the new
   leaf and the surviving turns is the old view up to and including that message.
   */
  lemma PruneIsPrefix(s: Session, t: TurnId, e: EntryId)
    requires SessionOk(s) && AnchorOf(s, t, e) && Lookup(s.turns, t).Some? && !Unsettled(s.turns, true)
    ensures var s' := Prune(s, e, s.turns[Lookup(s.turns, t).value].position);
            && ViewOf(s).Ok? && ViewOf(s').Ok?
            && ViewOf(s').value != [] && ViewOf(s').value <= ViewOf(s).value
            && Targets(ViewOf(s').value[|ViewOf(s').value| - 1], t, e)
  {
    hide FinalIndices, CompletedTurns, Lookup, FindEntry, ActiveBranch, IsAnchor, OwnOf, Mapped;
    var m, c, j, f := AnchorPlace(s, t, e);
    PruneBranch(s, e, m, c, f);
    MappedCut(Own(s), CompletedTurns(s.turns), j, t, f);
  }
}
