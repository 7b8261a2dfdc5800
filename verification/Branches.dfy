/**
 Pi session entry trees: the branch that ends at a leaf, the part of it that a
 forked session owns, and the entries of it that a conversation view shows.
 */
module Branches {
  import opened Common

  type EntryId = nat
  type TurnId = nat

  datatype Role = User | Assistant | OtherRole

  datatype StopReason = ToolUse | Failure | Aborted | Pending | Settled

  datatype EntryKind = MessageEntry | OtherEntry

  datatype Message = Message(role: Role, stopReason: Option<StopReason>, text: string)

  datatype Entry = Entry(
    id: EntryId,
    parentId: Option<EntryId>,
    kind: EntryKind,
    message: Option<Message>,
    timestamp: nat)

  type EntryTable = map<EntryId, Entry>

  datatype TreeError = Cycle | MissingParent | MissingForkAnchor

  // ------------------------------------------------------------------ active branch

  /** `b` is the root-to-leaf path of the tree stored in `rows`. */
  ghost predicate IsBranch(rows: EntryTable, leaf: Option<EntryId>, b: seq<Entry>) {
    && (leaf.None? <==> b == [])
    && (leaf.Some? ==> b[|b| - 1].id == leaf.value)
    && (forall i :: 0 <= i < |b| ==> b[i].id in rows && rows[b[i].id] == b[i])
    && (forall i {:trigger Above(b, i)} :: 0 <= i < |b| ==> b[i].parentId == Above(b, i))
  }

  /** What the parent link of `b[i]` must be for `b` to be a path from a root. */
  function Above(b: seq<Entry>, i: nat): Option<EntryId>
    requires i <= |b|
  {
    if i == 0 then None else Some(b[i - 1].id)
  }

  /** The climb from `cursor` to a root, given the identifiers already seen. */
  function Walk(rows: EntryTable, cursor: Option<EntryId>, seen: set<EntryId>): (r: Result<seq<Entry>, TreeError>)
    decreases rows.Keys - seen
  {
    if cursor.None? then Ok([])
    else if cursor.value in seen then Err(Cycle)
    else if cursor.value !in rows then Err(MissingParent)
    else
      var row := rows[cursor.value];
      match Walk(rows, row.parentId, seen + {cursor.value})
      case Ok(above) => Ok(above + [row])
      case Err(e) => Err(e)
  }

  function ActiveBranch(rows: EntryTable, leaf: Option<EntryId>): Result<seq<Entry>, TreeError> {
    Walk(rows, leaf, {})
  }

  function Below(r: Result<seq<Entry>, TreeError>, reversed: seq<Entry>): Result<seq<Entry>, TreeError> {
    match r
    case Ok(above) => Ok(above + Reverse(reversed))
    case Err(e) => Err(e)
  }

  lemma BelowStart(r: Result<seq<Entry>, TreeError>)
    ensures Below(r, []) == r
  {
    if r.Ok? {
      assert r.value + [] == r.value;
    }
  }

  /** Moving one row from the climb to the reversed list keeps the branch they spell. */
  lemma BelowStep(above: Result<seq<Entry>, TreeError>, row: Entry, reversed: seq<Entry>)
    ensures Below(above, reversed + [row]) ==
            Below(match above case Ok(a) => Ok(a + [row]) case Err(e) => Err(e), reversed)
  {
    ReverseSnoc(reversed, row);
    if above.Ok? {
      assert above.value + ([row] + Reverse(reversed)) == (above.value + [row]) + Reverse(reversed);
    }
  }

  /** The cursor loop: climb with a seen set, collect reversed, reverse at the end. */
  method ComputeActiveBranch(rows: EntryTable, leafId: Option<EntryId>) returns (r: Result<seq<Entry>, TreeError>)
    ensures r == ActiveBranch(rows, leafId)
  {
    if leafId.None? {
      return Ok([]);
    }
    var reversed: seq<Entry> := [];
    var seen: set<EntryId> := {};
    var cursor := leafId;
    BelowStart(ActiveBranch(rows, leafId));
    while cursor.Some?
      invariant ActiveBranch(rows, leafId) == Below(Walk(rows, cursor, seen), reversed)
      decreases rows.Keys - seen, if cursor.Some? then 1 else 0
    {
      if cursor.value in seen {
        return Err(Cycle);
      }
      if cursor.value !in rows {
        return Err(MissingParent);
      }
      var row := rows[cursor.value];
      BelowStep(Walk(rows, row.parentId, seen + {cursor.value}), row, reversed);
      seen := seen + {cursor.value};
      reversed := reversed + [row];
      cursor := row.parentId;
    }
    assert [] + Reverse(reversed) == Reverse(reversed);
    return Ok(Reverse(reversed));
  }

  lemma BranchSnoc(rows: EntryTable, leaf: Option<EntryId>, b: seq<Entry>, row: Entry)
    requires IsBranch(rows, leaf, b)
    requires row.id in rows && rows[row.id] == row && row.parentId == leaf
    ensures IsBranch(rows, Some(row.id), b + [row])
  {
    var b' := b + [row];
    forall i | 0 <= i < |b'|
      ensures b'[i].parentId == Above(b', i)
    {
      if i < |b| {
        assert b[i].parentId == Above(b, i) == Above(b', i);
      }
    }
  }

  lemma {:induction false} WalkSound(rows: EntryTable, cursor: Option<EntryId>, seen: set<EntryId>)
    requires WellKeyed(rows)
    requires Walk(rows, cursor, seen).Ok?
    ensures IsBranch(rows, cursor, Walk(rows, cursor, seen).value)
    decreases rows.Keys - seen
  {
    if cursor.Some? {
      var row := rows[cursor.value];
      WalkSound(rows, row.parentId, seen + {cursor.value});
      BranchSnoc(rows, row.parentId, Walk(rows, row.parentId, seen + {cursor.value}).value, row);
    }
  }

  /** Rows are looked up by their own identifier. */
  ghost predicate WellKeyed(rows: EntryTable) {
    forall k :: k in rows ==> rows[k].id == k
  }

  lemma {:induction false} BranchIdsDistinct(rows: EntryTable, leaf: Option<EntryId>, b: seq<Entry>, i: nat, j: nat)
    requires IsBranch(rows, leaf, b)
    requires i < j < |b|
    ensures b[i].id != b[j].id
    decreases i
  {
    assert b[i].parentId == Above(b, i) && b[j].parentId == Above(b, j);
    if b[i].id == b[j].id && i > 0 {
      BranchIdsDistinct(rows, leaf, b, i - 1, j - 1);
    }
  }

  lemma BranchPrefix(rows: EntryTable, leaf: Option<EntryId>, b: seq<Entry>, n: nat)
    requires IsBranch(rows, leaf, b)
    requires n < |b|
    ensures IsBranch(rows, Some(b[n].id), b[..n + 1])
  {
    var p := b[..n + 1];
    forall i | 0 <= i < n + 1
      ensures p[i].parentId == Above(p, i)
    {
      assert b[i].parentId == Above(b, i);
    }
  }

  lemma BranchAbove(rows: EntryTable, leaf: Option<EntryId>, b: seq<Entry>)
    requires IsBranch(rows, leaf, b)
    requires b != []
    ensures IsBranch(rows, b[|b| - 1].parentId, b[..|b| - 1])
  {
    var n := |b| - 1;
    forall i | 0 <= i < n
      ensures b[..n][i] == b[i] && Above(b[..n], i) == Above(b, i)
    {
    }
    assert b[n].parentId == Above(b, n);
  }

  lemma {:induction false} BranchIsWalk(rows: EntryTable, leaf: Option<EntryId>, b: seq<Entry>, seen: set<EntryId>)
    requires IsBranch(rows, leaf, b)
    requires forall i :: 0 <= i < |b| ==> b[i].id !in seen
    ensures Walk(rows, leaf, seen) == Ok(b)
    decreases |b|
  {
    if b != [] {
      var n := |b| - 1;
      var above := b[..n];
      var parent := b[n].parentId;
      BranchAbove(rows, leaf, b);
      forall i | 0 <= i < n
        ensures above[i].id !in seen + {b[n].id}
      {
        BranchIdsDistinct(rows, leaf, b, i, n);
      }
      BranchIsWalk(rows, parent, above, seen + {b[n].id});
      assert b == above + [b[n]];
    }
  }

  /** `ActiveBranch` returns exactly the branches of the tree, so a branch is unique. */
  lemma ActiveBranchIsTheBranch(rows: EntryTable, leaf: Option<EntryId>, b: seq<Entry>)
    requires WellKeyed(rows)
    ensures ActiveBranch(rows, leaf) == Ok(b) <==> IsBranch(rows, leaf, b)
  {
    if ActiveBranch(rows, leaf) == Ok(b) {
      WalkSound(rows, leaf, {});
    }
    if IsBranch(rows, leaf, b) {
      BranchIsWalk(rows, leaf, b, {});
    }
  }

  // ------------------------------------------------------------------ malformed trees

  /** Following parent links from `leaf` visits `path` in order. */
  ghost predicate Climb(rows: EntryTable, leaf: EntryId, path: seq<EntryId>) {
    && path != [] && path[0] == leaf
    && forall i :: 0 <= i < |path| - 1 ==> path[i] in rows && rows[path[i]].parentId == Some(path[i + 1])
  }

  ghost predicate Repeats(path: seq<EntryId>) {
    exists i, j :: 0 <= i < j < |path| && path[i] == path[j]
  }

  ghost predicate Terminal(rows: EntryTable, id: EntryId) {
    id in rows ==> rows[id].parentId.None?
  }

  ghost predicate Stops(rows: EntryTable, path: seq<EntryId>) {
    path != [] && Terminal(rows, path[|path| - 1])
  }

  lemma ClimbInner(rows: EntryTable, leaf: EntryId, p: seq<EntryId>, i: nat)
    requires Climb(rows, leaf, p)
    requires i < |p| - 1
    ensures !Terminal(rows, p[i])
  {
    assert rows[p[i]].parentId == Some(p[i + 1]);
  }

  /** Climbs are deterministic: the shorter of two is a prefix of the longer. */
  lemma {:induction false} ClimbUnique(rows: EntryTable, leaf: EntryId, p: seq<EntryId>, q: seq<EntryId>, i: nat)
    requires Climb(rows, leaf, p) && Climb(rows, leaf, q)
    requires i < |p| && i < |q|
    ensures p[i] == q[i]
  {
    if i > 0 {
      ClimbUnique(rows, leaf, p, q, i - 1);
    }
  }

  lemma {:induction false} RepeatsShift(rows: EntryTable, leaf: EntryId, p: seq<EntryId>, i: nat, j: nat, k: nat)
    requires Climb(rows, leaf, p)
    requires i < j && j + k < |p| && p[i] == p[j]
    ensures p[i + k] == p[j + k]
  {
    if k > 0 {
      RepeatsShift(rows, leaf, p, i, j, k - 1);
    }
  }

  /** A climb that stops neither repeats nor is part of a longer climb. */
  lemma StoppedClimb(rows: EntryTable, leaf: EntryId, p: seq<EntryId>, q: seq<EntryId>)
    requires Climb(rows, leaf, p) && Stops(rows, p)
    requires Climb(rows, leaf, q)
    ensures |q| <= |p|
    ensures !Repeats(q)
  {
    var n := |p| - 1;
    if |q| > |p| {
      ClimbInner(rows, leaf, q, n);
      ClimbUnique(rows, leaf, p, q, n);
    }
    if Repeats(q) {
      var i, j :| 0 <= i < j < |q| && q[i] == q[j];
      ClimbUnique(rows, leaf, p, q, i);
      ClimbUnique(rows, leaf, p, q, j);
      ClimbInner(rows, leaf, p, i + (n - j));
      RepeatsShift(rows, leaf, p, i, j, n - j);
    }
  }

  lemma {:induction false} WalkClimbs(rows: EntryTable, leaf: EntryId, seen: set<EntryId>, above: seq<EntryId>)
    returns (path: seq<EntryId>)
    requires WellKeyed(rows)
    requires above == [] || Climb(rows, above[0], above + [leaf])
    requires forall x :: x in seen ==> x in above
    ensures Climb(rows, (above + [leaf])[0], path)
    ensures Walk(rows, Some(leaf), seen).Ok? ==> Stops(rows, path) && path[|path| - 1] in rows
    ensures Walk(rows, Some(leaf), seen) == Err(MissingParent) ==> path[|path| - 1] !in rows
    ensures Walk(rows, Some(leaf), seen) == Err(Cycle) ==> Repeats(path)
    ensures Walk(rows, Some(leaf), seen) != Err(MissingForkAnchor)
    decreases rows.Keys - seen
  {
    path := above + [leaf];
    if leaf in seen {
      var i :| 0 <= i < |above| && above[i] == leaf;
      assert path[i] == path[|above|];
    } else if leaf in rows && rows[leaf].parentId.None? {
      assert Walk(rows, None, seen + {leaf}) == Ok([]);
    } else if leaf in rows {
      var next := rows[leaf].parentId.value;
      assert above + [leaf] + [next] == path + [next];
      path := WalkClimbs(rows, next, seen + {leaf}, path);
      assert Walk(rows, Some(leaf), seen).Err? ==>
             Walk(rows, Some(leaf), seen) == Walk(rows, Some(next), seen + {leaf});
    }
  }

  /**
   `ActiveBranch` succeeds, reports a missing parent or reports a cycle, and each of the
   three exactly when the links from the leaf reach a root, leave the table or loop.
   */
  lemma ActiveBranchTrichotomy(rows: EntryTable, leaf: EntryId)
    requires WellKeyed(rows)
    ensures ActiveBranch(rows, Some(leaf)).Ok? <==>
            exists p :: Climb(rows, leaf, p) && Stops(rows, p) && p[|p| - 1] in rows
    ensures ActiveBranch(rows, Some(leaf)) == Err(MissingParent) <==>
            exists p :: Climb(rows, leaf, p) && p[|p| - 1] !in rows
    ensures ActiveBranch(rows, Some(leaf)) == Err(Cycle) <==>
            exists p :: Climb(rows, leaf, p) && Repeats(p)
  {
    var w := WalkClimbs(rows, leaf, {}, []);
    var r := ActiveBranch(rows, Some(leaf));
    assert r.Ok? || r.error.MissingParent? || r.error.Cycle?;
    assert ([] + [leaf])[0] == leaf;
    forall p | Climb(rows, leaf, p)
      ensures Stops(rows, p) && p[|p| - 1] in rows ==> ActiveBranch(rows, Some(leaf)).Ok?
      ensures p[|p| - 1] !in rows ==> ActiveBranch(rows, Some(leaf)) == Err(MissingParent)
      ensures Repeats(p) ==> ActiveBranch(rows, Some(leaf)) == Err(Cycle)
    {
      if Stops(rows, p) {
        StoppedClimb(rows, leaf, p, w);
        if Stops(rows, w) {
          StoppedClimb(rows, leaf, w, p);
          ClimbUnique(rows, leaf, p, w, |p| - 1);
        }
      }
      if Repeats(p) && Stops(rows, w) {
        StoppedClimb(rows, leaf, w, p);
      }
    }
  }
}
