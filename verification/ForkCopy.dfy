/**
 The rows a fork writes for its child: one reference per copied entry, the lane and the name,
 and the copied labels, all numbered from one counter.
 */
module ForkCopy {
  import opened Branches

  type Label = string

  datatype EntryRef = EntryRef(number: nat, entry: Entry)

  datatype LogRow =
    | LaneRow(number: nat, leaf: EntryId)
    | NameRow(number: nat)
    | LabelRow(number: nat, target: EntryId, name: Label)

  datatype LabelEntry = LabelEntry(name: Label, updated: nat)

  datatype StoredSession = StoredSession(
    refs: seq<EntryRef>,
    log: seq<LogRow>,
    labels: map<EntryId, LabelEntry>,
    leaf: EntryId,
    next: nat)

  function RefsOf(path: seq<Entry>): seq<EntryRef> {
    seq(|path|, i requires 0 <= i < |path| => EntryRef(i + 1, path[i]))
  }

  /** The sequence numbers in use, entries first, in the order the rows were written. */
  function NumbersUsed(s: StoredSession): seq<nat> {
    seq(|s.refs|, i requires 0 <= i < |s.refs| => s.refs[i].number) +
    seq(|s.log|, i requires 0 <= i < |s.log| => s.log[i].number)
  }

  /** The numbers in use are exactly 1, 2, ..., next - 1, each once and in writing order. */
  ghost predicate Filled(s: StoredSession) {
    && s.next == |NumbersUsed(s)| + 1
    && forall i :: 0 <= i < |NumbersUsed(s)| ==> NumbersUsed(s)[i] == i + 1
  }

  lemma FilledAppend(s: StoredSession, row: LogRow, s': StoredSession)
    requires Filled(s) && row.number == s.next
    requires s'.refs == s.refs && s'.log == s.log + [row] && s'.next == s.next + 1
    ensures Filled(s')
  {
    assert NumbersUsed(s') == NumbersUsed(s) + [row.number];
  }

  /** Each label row carries the number its label entry records, and every copied label has its row. */
  ghost predicate LabelsLogged(s: StoredSession) {
    && (forall t :: t in s.labels ==> LabelRow(s.labels[t].updated, t, s.labels[t].name) in s.log)
    && (forall n, t, l :: LabelRow(n, t, l) in s.log ==> t in s.labels && s.labels[t] == LabelEntry(l, n))
  }

  ghost predicate DistinctIds(path: seq<Entry>) {
    forall i, j :: 0 <= i < j < |path| ==> path[i].id != path[j].id
  }

  lemma LabelsLoggedAppend(s: StoredSession, t: EntryId, l: Label, n: nat)
    requires LabelsLogged(s) && t !in s.labels
    ensures LabelsLogged(s.(log := s.log + [LabelRow(n, t, l)], labels := s.labels[t := LabelEntry(l, n)], next := n + 1))
  {
  }

  /** `t` is one of the first `n` copied entries and carries a label at the source. */
  ghost predicate Copied(path: seq<Entry>, labels: map<EntryId, Label>, n: nat, t: EntryId)
    requires n <= |path|
  {
    t in labels && exists j :: 0 <= j < n && path[j].id == t
  }

  /** The labels of the first `n` copied entries, and no others, have been copied unchanged. */
  ghost predicate LabelsCopied(s: StoredSession, path: seq<Entry>, labels: map<EntryId, Label>, n: nat)
    requires n <= |path|
  {
    && (forall t :: t in s.labels <==> Copied(path, labels, n, t))
    && (forall t :: t in s.labels ==> s.labels[t].name == labels[t])
  }

  /**
   Writing the child's rows: the entries get 1..k, the lane and the name the next two, and the
   labels of copied entries the rest, so no number is skipped or used twice.
   */
  method CopySession(path: seq<Entry>, labels: map<EntryId, Label>) returns (s: StoredSession)
    requires path != [] && DistinctIds(path)
    ensures Filled(s) && LabelsLogged(s)
    ensures s.refs == RefsOf(path) && s.leaf == path[|path| - 1].id
    ensures |s.log| >= 2 && s.log[0] == LaneRow(|path| + 1, s.leaf) && s.log[1] == NameRow(|path| + 2)
    ensures LabelsCopied(s, path, labels, |path|)
    ensures s.next == |path| + 3 + |s.labels|
  {
    s := CopyEntryRows(path);
    hide Filled, LabelsLogged, LabelsCopied, RefsOf, DistinctIds;
    for i := 0 to |path|
      invariant Filled(s) && LabelsLogged(s)
      invariant s.refs == RefsOf(path) && s.leaf == path[|path| - 1].id
      invariant |s.log| >= 2 && s.log[0] == LaneRow(|path| + 1, s.leaf) && s.log[1] == NameRow(|path| + 2)
      invariant LabelsCopied(s, path, labels, i)
      invariant s.next == |path| + 3 + |s.labels|
    {
      s := CopyLabel(s, path, labels, i);
    }
  }

  /** The entry references, then the lane, then the name. */
  method CopyEntryRows(path: seq<Entry>) returns (s: StoredSession)
    requires path != []
    ensures Filled(s) && LabelsLogged(s)
    ensures s.refs == RefsOf(path) && s.leaf == path[|path| - 1].id
    ensures s.log == [LaneRow(|path| + 1, s.leaf), NameRow(|path| + 2)]
    ensures s.labels == map[] && s.next == |path| + 3
  {
    var refs: seq<EntryRef> := [];
    for i := 0 to |path|
      invariant refs == RefsOf(path[..i])
    {
      refs := refs + [EntryRef(i + 1, path[i])];
    }
    assert path[..|path|] == path;
    var leaf := path[|path| - 1].id;
    s := StoredSession(refs, [], map[], leaf, |path| + 1);
    var lane, name := LaneRow(|path| + 1, leaf), NameRow(|path| + 2);
    var withLane := s.(log := [lane], next := |path| + 2);
    FilledAppend(s, lane, withLane);
    s := withLane.(log := [lane, name], next := |path| + 3);
    FilledAppend(withLane, name, s);
  }

  lemma CopiedStep(path: seq<Entry>, labels: map<EntryId, Label>, i: nat, t: EntryId)
    requires i < |path| && DistinctIds(path)
    ensures Copied(path, labels, i + 1, t) <==> Copied(path, labels, i, t) || (t == path[i].id && t in labels)
    ensures !Copied(path, labels, i, path[i].id)
  {
    if Copied(path, labels, i, t) {
      var j :| 0 <= j < i && path[j].id == t;
      assert 0 <= j < i + 1 && path[j].id == t;
    }
  }

  lemma LabelsCopiedStep(s: StoredSession, path: seq<Entry>, labels: map<EntryId, Label>, i: nat, s': StoredSession)
    requires i < |path| && DistinctIds(path) && LabelsCopied(s, path, labels, i)
    requires path[i].id !in labels ==> s' == s
    requires path[i].id in labels ==> s'.labels == s.labels[path[i].id := LabelEntry(labels[path[i].id], s.next)]
    ensures LabelsCopied(s', path, labels, i + 1)
    ensures path[i].id !in s.labels
  {
    hide Copied;
    forall t
      ensures Copied(path, labels, i + 1, t) <==> Copied(path, labels, i, t) || (t == path[i].id && t in labels)
    {
      CopiedStep(path, labels, i, t);
    }
    CopiedStep(path, labels, i, path[i].id);
  }

  method CopyLabel(s: StoredSession, path: seq<Entry>, labels: map<EntryId, Label>, i: nat) returns (s': StoredSession)
    requires i < |path| && DistinctIds(path)
    requires Filled(s) && LabelsLogged(s) && LabelsCopied(s, path, labels, i)
    ensures Filled(s') && LabelsLogged(s') && LabelsCopied(s', path, labels, i + 1)
    ensures s'.refs == s.refs && s'.leaf == s.leaf && s.log <= s'.log
    ensures s'.next - |s'.labels| == s.next - |s.labels|
  {
    hide Filled, LabelsLogged, LabelsCopied, DistinctIds;
    var t := path[i].id;
    s' := s;
    if t in labels {
      var row := LabelRow(s.next, t, labels[t]);
      s' := s.(log := s.log + [row], labels := s.labels[t := LabelEntry(labels[t], s.next)], next := s.next + 1);
      FilledAppend(s, row, s');
    }
    LabelsCopiedStep(s, path, labels, i, s');
    if t in labels {
      LabelsLoggedAppend(s, t, labels[t], s.next);
    }
  }

  /** Moving the lane, as a prune does, takes the next number and leaves no gap either. */
  method MoveLane(s: StoredSession, leaf: EntryId) returns (s': StoredSession)
    ensures Filled(s) ==> Filled(s')
    ensures s'.leaf == leaf && s'.refs == s.refs && s'.labels == s.labels
    ensures s'.log == s.log + [LaneRow(s.next, leaf)] && s'.next == s.next + 1
  {
    s' := s.(leaf := leaf, log := s.log + [LaneRow(s.next, leaf)], next := s.next + 1);
    if Filled(s) {
      FilledAppend(s, LaneRow(s.next, leaf), s');
    }
  }

  ghost predicate EntryNumbered(s: StoredSession, n: nat) {
    exists i :: 0 <= i < |s.refs| && s.refs[i].number == n
  }

  ghost predicate RowNumbered(s: StoredSession, n: nat) {
    exists i :: 0 <= i < |s.log| && s.log[i].number == n
  }

  /** Below the counter and from 1 up, each number belongs to one entry or to one log row, and never to both. */
  lemma NumbersDistinct(s: StoredSession)
    requires Filled(s)
    ensures forall i, j :: 0 <= i < j < |s.refs| ==> s.refs[i].number != s.refs[j].number
    ensures forall i, j :: 0 <= i < j < |s.log| ==> s.log[i].number != s.log[j].number
    ensures forall n: nat :: EntryNumbered(s, n) || RowNumbered(s, n) <==> 1 <= n < s.next
    ensures forall n: nat :: !(EntryNumbered(s, n) && RowNumbered(s, n))
  {
    var k := |s.refs|;
    forall i | 0 <= i < k
      ensures s.refs[i].number == i + 1
    {
      assert NumbersUsed(s)[i] == i + 1;
    }
    forall i | 0 <= i < |s.log|
      ensures s.log[i].number == k + i + 1
    {
      assert NumbersUsed(s)[k + i] == k + i + 1;
    }
    forall n | 1 <= n < s.next
      ensures EntryNumbered(s, n) || RowNumbered(s, n)
    {
      if n <= k {
        assert s.refs[n - 1].number == n;
      } else {
        assert s.log[n - 1 - k].number == n;
      }
    }
  }
}
