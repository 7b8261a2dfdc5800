/** Pages of a workspace version's files, found again by binary search over their paths. */
module FilePaging {
  import opened Common

  /** A path as its code units, compared the way the language compares strings. */
  type Path = seq<nat>

  datatype File = File(path: Path, size: nat)

  const MAX_PAGE_SIZE := 512

  // ------------------------------------------------------------------ the order of paths

  predicate AtMost(a: Path, b: Path) {
    if a == [] then true
    else if b == [] then false
    else if a[0] != b[0] then a[0] < b[0]
    else AtMost(a[1..], b[1..])
  }

  predicate Before(a: Path, b: Path) {
    AtMost(a, b) && a != b
  }

  lemma {:induction false} AtMostTotal(a: Path, b: Path)
    ensures AtMost(a, b) || AtMost(b, a)
  {
    if a != [] && b != [] && a[0] == b[0] {
      AtMostTotal(a[1..], b[1..]);
    }
  }

  lemma {:induction false} AtMostAntisymmetric(a: Path, b: Path)
    requires AtMost(a, b) && AtMost(b, a)
    ensures a == b
  {
    if a != [] && b != [] {
      AtMostAntisymmetric(a[1..], b[1..]);
      assert a == [a[0]] + a[1..] && b == [b[0]] + b[1..];
    }
  }

  lemma {:induction false} AtMostTransitive(a: Path, b: Path, c: Path)
    requires AtMost(a, b) && AtMost(b, c)
    ensures AtMost(a, c)
  {
    if a != [] && b != [] && c != [] && a[0] == b[0] == c[0] {
      AtMostTransitive(a[1..], b[1..], c[1..]);
    }
  }

  /** The two paths agree before their `k`-th code unit. */
  ghost predicate AgreeTo(a: Path, b: Path, k: nat) {
    k <= |a| && k <= |b| && forall i :: 0 <= i < k ==> a[i] == b[i]
  }

  ghost predicate Smaller(a: Path, b: Path, k: nat) {
    AgreeTo(a, b, k) && k < |b| && (k == |a| || (k < |a| && a[k] < b[k]))
  }

  /** Paths are compared as strings are: equal, or smaller at the first place where they differ or one ends. */
  lemma {:induction false} AtMostIs(a: Path, b: Path)
    ensures AtMost(a, b) <==> a == b || exists k: nat :: Smaller(a, b, k)
  {
    if a == [] {
      assert b == [] || Smaller(a, b, 0);
    } else if b != [] {
      if a[0] == b[0] {
        AtMostIs(a[1..], b[1..]);
        TailsEqual(a, b);
        if exists k: nat :: Smaller(a[1..], b[1..], k) {
          var k: nat :| Smaller(a[1..], b[1..], k);
          SmallerLonger(a, b, k);
        }
        if exists k: nat :: Smaller(a, b, k) {
          var k: nat :| Smaller(a, b, k);
          assert Smaller(a[1..], b[1..], k - 1);
        }
      } else if a[0] < b[0] {
        assert Smaller(a, b, 0);
      }
    }
  }

  lemma TailsEqual(a: Path, b: Path)
    requires a != [] && b != [] && a[0] == b[0]
    ensures a[1..] == b[1..] <==> a == b
  {
    assert a == [a[0]] + a[1..] && b == [b[0]] + b[1..];
  }

  lemma SmallerLonger(a: Path, b: Path, k: nat)
    requires a != [] && b != [] && a[0] == b[0] && Smaller(a[1..], b[1..], k)
    ensures Smaller(a, b, k + 1)
  {
    forall i | 0 <= i < k + 1
      ensures a[i] == b[i]
    {
      if i > 0 {
        assert a[1..][i - 1] == b[1..][i - 1];
      }
    }
  }

  /** Files in strictly increasing order of path. */
  ghost predicate Sorted(files: seq<File>) {
    forall i, j :: 0 <= i < j < |files| ==> Before(files[i].path, files[j].path)
  }

  lemma SortedReaches(files: seq<File>, i: nat, j: nat, cursor: Path)
    requires Sorted(files) && i <= j < |files| && AtMost(files[j].path, cursor)
    ensures AtMost(files[i].path, cursor)
  {
    if i < j {
      AtMostTransitive(files[i].path, files[j].path, cursor);
    }
    hide AtMost;
  }

  // ------------------------------------------------------------------ one page

  /** How many files come no later than the cursor. */
  function CountUpTo(files: seq<File>, cursor: Path): nat {
    if files == [] then 0
    else CountUpTo(files[..|files| - 1], cursor) + if AtMost(files[|files| - 1].path, cursor) then 1 else 0
  }

  /** `k` splits the list at the cursor. */
  ghost predicate Splits(files: seq<File>, cursor: Path, k: nat) {
    && k <= |files|
    && (forall i :: 0 <= i < k ==> AtMost(files[i].path, cursor))
    && (forall i :: k <= i < |files| ==> !AtMost(files[i].path, cursor))
  }

  lemma {:induction false} SplitIsCount(files: seq<File>, cursor: Path, k: nat)
    requires Splits(files, cursor, k)
    ensures CountUpTo(files, cursor) == k
  {
    hide AtMost;
    if files != [] {
      var n := |files| - 1;
      SplitIsCount(files[..n], cursor, if k <= n then k else n);
    }
  }

  datatype Page = Page(files: seq<File>, next: Option<Path>)

  function StartOf(files: seq<File>, cursor: Option<Path>): nat {
    match cursor
    case Some(c) => CountUpTo(files, c)
    case None => 0
  }

  lemma {:induction false} CountBounded(files: seq<File>, cursor: Path)
    ensures CountUpTo(files, cursor) <= |files|
  {
    if files != [] {
      CountBounded(files[..|files| - 1], cursor);
    }
    hide AtMost;
  }

  function PageFrom(files: seq<File>, start: nat, size: nat): Page
    requires start <= |files|
  {
    var end := if start + size <= |files| then start + size else |files|;
    var page := files[start..end];
    Page(page, if end < |files| && page != [] then Some(page[|page| - 1].path) else None)
  }

  /** The binary search and the slice. */
  method Files(files: seq<File>, cursor: Option<Path>, pageSize: nat) returns (page: Page)
    requires Sorted(files) && 1 <= pageSize <= MAX_PAGE_SIZE
    ensures StartOf(files, cursor) <= |files|
    ensures page == PageFrom(files, StartOf(files, cursor), pageSize)
  {
    hide AtMost, Sorted;
    var start := 0;
    match cursor {
      case None =>
      case Some(c) =>
        var low, high := 0, |files|;
        while low < high
          invariant 0 <= low <= high <= |files|
          invariant forall i :: 0 <= i < low ==> AtMost(files[i].path, c)
          invariant forall i :: high <= i < |files| ==> !AtMost(files[i].path, c)
        {
          var middle := (low + high) / 2;
          if AtMost(files[middle].path, c) {
            forall i | 0 <= i <= middle
              ensures AtMost(files[i].path, c)
            {
              SortedReaches(files, i, middle, c);
            }
            low := middle + 1;
          } else {
            forall i | middle <= i < |files|
              ensures !AtMost(files[i].path, c)
            {
              if AtMost(files[i].path, c) {
                SortedReaches(files, middle, i, c);
              }
            }
            high := middle;
          }
        }
        SplitIsCount(files, c, low);
        start := low;
    }
    page := PageFrom(files, start, pageSize);
  }

  // ------------------------------------------------------------------ following the cursor

  /** A page's own last path leads to the place right after it. */
  lemma CursorFound(files: seq<File>, k: nat)
    requires Sorted(files) && k < |files|
    ensures CountUpTo(files, files[k].path) == k + 1
  {
    var c := files[k].path;
    hide AtMost;
    forall i | 0 <= i <= k
      ensures AtMost(files[i].path, c)
    {
      AtMostRefl(c);
    }
    forall i | k < i < |files|
      ensures !AtMost(files[i].path, c)
    {
      if AtMost(files[i].path, c) {
        AtMostAntisymmetric(files[i].path, c);
      }
    }
    SplitIsCount(files, c, k + 1);
  }

  lemma {:induction false} AtMostRefl(a: Path)
    ensures AtMost(a, a)
  {
    if a != [] {
      AtMostRefl(a[1..]);
    }
  }

  /** The pages a client sees that asks for the next one until there is none. */
  function Follow(files: seq<File>, start: nat, size: nat): seq<Page>
    requires start <= |files| && size >= 1
    decreases |files| - start
  {
    var page := PageFrom(files, start, size);
    if page.next.None? then [page] else [page] + Follow(files, start + |page.files|, size)
  }

  function Pages(pages: seq<Page>): seq<File> {
    if pages == [] then [] else pages[0].files + Pages(pages[1..])
  }

  /** Each page after the first starts where a search for the cursor before it lands. */
  lemma NextPageFound(files: seq<File>, start: nat, size: nat)
    requires Sorted(files) && start <= |files| && size >= 1
    requires PageFrom(files, start, size).next.Some?
    ensures var page := PageFrom(files, start, size);
            StartOf(files, page.next) == start + |page.files|
  {
    CursorFound(files, start + size - 1);
  }

  /**
   Following the cursor from the start ends, every page but that of an empty list has files, and the
   pages make up the list.
   */
  lemma {:induction false} FollowCovers(files: seq<File>, start: nat, size: nat)
    requires Sorted(files) && start <= |files| && size >= 1
    ensures Pages(Follow(files, start, size)) == files[start..]
    ensures start < |files| ==> forall k :: 0 <= k < |Follow(files, start, size)| ==> Follow(files, start, size)[k].files != []
    decreases |files| - start
  {
    var page := PageFrom(files, start, size);
    hide Sorted;
    if page.next.Some? {
      FollowCovers(files, start + |page.files|, size);
      var rest := Follow(files, start + |page.files|, size);
      assert ([page] + rest)[1..] == rest;
      assert page.files + files[start + |page.files|..] == files[start..];
    } else {
      assert [page][1..] == [];
      assert page.files + [] == page.files;
    }
  }

  lemma PageShape(files: seq<File>, start: nat, size: nat)
    requires start <= |files| && size >= 1
    ensures var page := PageFrom(files, start, size);
            && start + |page.files| <= |files| && files[..start] + page.files == files[..start + |page.files|]
            && (start < |files| ==> page.files != [])
            && (page.next.Some? <==> start + |page.files| < |files|)
            && |page.files| == (if |files| - start <= size then |files| - start else size)
  {
  }

  /** How many pages of `size` it takes to show `n` files. */
  function PageCount(n: nat, size: nat): nat
    requires size >= 1
  {
    if n <= size then 1 else 1 + PageCount(n - size, size)
  }

  /** An empty list still takes one page; any other takes no page more than its files need. */
  lemma {:induction false} PageCountIs(n: nat, size: nat)
    requires size >= 1
    ensures n <= PageCount(n, size) * size
    ensures if n == 0 then PageCount(n, size) == 1 else (PageCount(n, size) - 1) * size < n
  {
    if n > size {
      PageCountIs(n - size, size);
      var q := PageCount(n - size, size);
      assert (1 + q) * size == size + q * size;
      assert q * size == (q - 1) * size + size;
    }
  }

  /** What a client holds that asks for pages, each with the cursor of the one before, until there is no next one. */
  method Collect(files: seq<File>, pageSize: nat) returns (all: seq<File>, pages: nat)
    requires Sorted(files) && 1 <= pageSize <= MAX_PAGE_SIZE
    ensures all == files
    ensures pages == PageCount(|files|, pageSize)
  {
    all, pages := [], 0;
    var cursor: Option<Path> := None;
    var more := true;
    ghost var start: nat := 0;
    while more
      invariant start <= |files|
      invariant all == files[..start]
      invariant more ==> StartOf(files, cursor) == start
      invariant more ==> start < |files| || start == 0
      invariant !more ==> start == |files|
      invariant pages + (if more then PageCount(|files| - start, pageSize) else 0) == PageCount(|files|, pageSize)
      decreases more, |files| - start
    {
      hide Sorted, CountUpTo, PageFrom;
      var page := Files(files, cursor, pageSize);
      PageShape(files, start, pageSize);
      if page.next.Some? {
        NextPageFound(files, start, pageSize);
      }
      all := all + page.files;
      start := start + |page.files|;
      pages := pages + 1;
      cursor := page.next;
      more := page.next.Some?;
    }
    assert files[..|files|] == files;
  }
}
