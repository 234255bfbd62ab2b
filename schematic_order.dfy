/**
 * The ordering used by the `list` command: the sort key chosen from the
 * flags, the comparator over files, and the in-place sort of the listing.
 */
module SchematicOrder {
  import opened SchematicFiles

  /** The sort key: -d (oldest first) wins over -n (newest first); the default is by name. */
  function SortType(oldestFirst: bool, newestFirst: bool): (sortType: int)
    ensures sortType == -1 <==> oldestFirst
    ensures sortType == 1 <==> !oldestFirst && newestFirst
    ensures sortType == 0 <==> !oldestFirst && !newestFirst
  {
    if oldestFirst then -1 else if newestFirst then 1 else 0
  }

  /**
   * toLowerCase(toUpperCase(c)) for the letters file names use here: the
   * ASCII letters and the Cyrillic block U+0400 to U+042F. Every other
   * character folds to itself.
   */
  function FoldChar(c: char): char {
    if 'A' <= c <= 'Z' then (c as int + 32) as char
    else if '\U{0410}' <= c <= '\U{042F}' then (c as int + 32) as char
    else if '\U{0400}' <= c <= '\U{040F}' then (c as int + 80) as char
    else c
  }

  function FoldString(s: string): (r: string)
    ensures |r| == |s|
  {
    if s == [] then [] else [FoldChar(s[0])] + FoldString(s[1..])
  }

  /**
   * String.compareToIgnoreCase: the difference of the first pair of folded
   * characters that differ, or else the difference of the lengths. The result
   * is zero exactly when the two names are equal after case folding.
   */
  function CompareIgnoreCase(x: string, y: string): (r: int)
    ensures r == 0 <==> FoldString(x) == FoldString(y)
  {
    if x == [] || y == [] then |x| - |y|
    else
      assert FoldString(x)[0] == FoldChar(x[0]) && FoldString(x)[1..] == FoldString(x[1..]);
      assert FoldString(y)[0] == FoldChar(y[0]) && FoldString(y)[1..] == FoldString(y[1..]);
      if FoldChar(x[0]) != FoldChar(y[0]) then FoldChar(x[0]) as int - FoldChar(y[0]) as int
      else CompareIgnoreCase(x[1..], y[1..])
  }

  /** Long.compareTo. */
  function CompareLong(a: int, b: int): int {
    if a < b then -1 else if a == b then 0 else 1
  }

  /**
   * The comparator of `list`. Anything that is not a regular file compares
   * below everything, which breaks the comparator's contract; the listing
   * filter keeps such entries out.
   */
  function Compare(sortType: int, f1: Node, f2: Node): (r: int)
    ensures IsFile(f1) && IsFile(f2) && sortType == 0 ==> (r == 0 <==> FoldString(f1.name) == FoldString(f2.name))
    ensures IsFile(f1) && IsFile(f2) && sortType != 0 ==> (r == 0 <==> f1.kind.lastModified == f2.kind.lastModified)
    ensures IsFile(f1) && IsFile(f2) && sortType == 1 ==> (r < 0 <==> f1.kind.lastModified > f2.kind.lastModified)
    ensures (IsFile(f1) && IsFile(f2) && sortType != 0 && sortType != 1)
              ==> (r < 0 <==> f1.kind.lastModified < f2.kind.lastModified)
  {
    if !IsFile(f1) || !IsFile(f2) then -1
    else
      var result := if sortType == 0 then CompareIgnoreCase(f1.name, f2.name)
                    else CompareLong(f1.kind.lastModified, f2.kind.lastModified);
      if sortType == 1 then -result else result
  }

  predicate InOrder(sortType: int, f1: Node, f2: Node) {
    Compare(sortType, f1, f2) <= 0
  }

  /** The order Arrays.sort establishes: every earlier element compares at most equal to every later one. */
  predicate Sorted(s: seq<Node>, sortType: int) {
    forall i, j :: 0 <= i < j < |s| ==> InOrder(sortType, s[i], s[j])
  }

  predicate AdjacentSorted(s: seq<Node>, sortType: int) {
    forall k :: 0 < k < |s| ==> InOrder(sortType, s[k - 1], s[k])
  }

  function Reverse(s: seq<Node>): seq<Node> {
    seq(|s|, i requires 0 <= i < |s| => s[|s| - 1 - i])
  }

  lemma {:induction false} CompareIgnoreCaseAntisymmetric(x: string, y: string)
    ensures CompareIgnoreCase(x, y) == -CompareIgnoreCase(y, x)
  {
    if x != [] && y != [] && FoldChar(x[0]) == FoldChar(y[0]) {
      CompareIgnoreCaseAntisymmetric(x[1..], y[1..]);
    }
  }

  lemma {:induction false} CompareIgnoreCaseTransitive(x: string, y: string, z: string)
    requires CompareIgnoreCase(x, y) <= 0 && CompareIgnoreCase(y, z) <= 0
    ensures CompareIgnoreCase(x, z) <= 0
  {
    if x != [] && y != [] && z != []
       && FoldChar(x[0]) == FoldChar(y[0]) && FoldChar(y[0]) == FoldChar(z[0]) {
      CompareIgnoreCaseTransitive(x[1..], y[1..], z[1..]);
    }
  }

  /** A name sorts before every longer name that extends it up to case. */
  lemma {:induction false} CompareIgnoreCaseProperPrefix(x: string, y: string)
    requires |x| < |y| && FoldString(x) == FoldString(y[..|x|])
    ensures CompareIgnoreCase(x, y) < 0
  {
    if x != [] {
      assert FoldString(x)[0] == FoldChar(x[0]);
      assert FoldString(y[..|x|])[0] == FoldChar(y[0]);
      assert FoldString(x)[1..] == FoldString(x[1..]);
      assert y[..|x|][1..] == y[1..][..|x| - 1];
      assert FoldString(y[..|x|])[1..] == FoldString(y[..|x|][1..]);
      CompareIgnoreCaseProperPrefix(x[1..], y[1..]);
    }
  }

  /** On regular files the comparator is antisymmetric, for every sort key. */
  lemma CompareAntisymmetric(sortType: int, f1: Node, f2: Node)
    requires IsFile(f1) && IsFile(f2)
    ensures Compare(sortType, f1, f2) == -Compare(sortType, f2, f1)
  {
    CompareIgnoreCaseAntisymmetric(f1.name, f2.name);
  }

  /** On regular files "compares at most equal" is transitive, for every sort key. */
  lemma CompareTransitive(sortType: int, f1: Node, f2: Node, f3: Node)
    requires IsFile(f1) && IsFile(f2) && IsFile(f3)
    requires InOrder(sortType, f1, f2) && InOrder(sortType, f2, f3)
    ensures InOrder(sortType, f1, f3)
  {
    if sortType == 0 {
      CompareIgnoreCaseTransitive(f1.name, f2.name, f3.name);
    }
  }

  /** A non-file compares below everything in both directions: the comparator contract fails. */
  lemma NonFileBreaksComparator(sortType: int, f1: Node, f2: Node)
    requires !IsFile(f1)
    ensures Compare(sortType, f1, f2) < 0 && Compare(sortType, f2, f1) < 0
  {
  }

  lemma {:induction false} AdjacentSortedIsSorted(s: seq<Node>, sortType: int)
    requires AllFiles(s) && AdjacentSorted(s, sortType)
    ensures Sorted(s, sortType)
  {
    if |s| > 1 {
      var init := s[..|s| - 1];
      assert AdjacentSorted(init, sortType) by {
        forall k | 0 < k < |init| ensures InOrder(sortType, init[k - 1], init[k]) {
          assert init[k - 1] == s[k - 1] && init[k] == s[k];
        }
      }
      AdjacentSortedIsSorted(init, sortType);
      forall i, j | 0 <= i < j < |s| ensures InOrder(sortType, s[i], s[j]) {
        if j < |s| - 1 {
          assert init[i] == s[i] && init[j] == s[j];
        } else if i < j - 1 {
          assert init[i] == s[i] && init[j - 1] == s[j - 1];
          CompareTransitive(sortType, s[i], s[j - 1], s[j]);
        }
      }
    }
  }

  /** Key 0: ascending by name, ignoring case. */
  lemma ByNameIsCaseInsensitiveAscending(s: seq<Node>)
    requires AllFiles(s)
    ensures Sorted(s, 0) <==> forall i, j :: 0 <= i < j < |s| ==> CompareIgnoreCase(s[i].name, s[j].name) <= 0
  {
  }

  /** Key -1: oldest first. */
  lemma OldestFirstByModificationTime(s: seq<Node>)
    requires AllFiles(s)
    ensures Sorted(s, -1) <==> forall i, j :: 0 <= i < j < |s| ==> s[i].kind.lastModified <= s[j].kind.lastModified
  {
  }

  /** Key 1 is exactly the reverse of key -1. */
  lemma NewestFirstReversesOldestFirst(s: seq<Node>)
    requires AllFiles(s)
    ensures Sorted(s, 1) <==> Sorted(Reverse(s), -1)
  {
    var n, r := |s|, Reverse(s);
    if Sorted(s, 1) {
      forall i, j | 0 <= i < j < n ensures InOrder(-1, r[i], r[j]) {
        assert InOrder(1, s[n - 1 - j], s[n - 1 - i]);
      }
    }
    if Sorted(r, -1) {
      forall i, j | 0 <= i < j < n ensures InOrder(1, s[i], s[j]) {
        assert InOrder(-1, r[n - 1 - j], r[n - 1 - i]);
      }
    }
  }

  /**
   * Arrays.sort with the comparator of `list` (an insertion sort here: both
   * are stable). Every element is a regular file, as the listing filter ensures.
   */
  method SortFiles(a: array<Node>, sortType: int)
    requires forall k :: 0 <= k < a.Length ==> IsFile(a[k])
    modifies a
    ensures Sorted(a[..], sortType)
    ensures multiset(a[..]) == old(multiset(a[..]))
  {
    var i := 0;
    while i < a.Length
      invariant 0 <= i <= a.Length
      invariant forall k :: 0 <= k < a.Length ==> IsFile(a[k])
      invariant forall k :: 0 < k < i ==> InOrder(sortType, a[k - 1], a[k])
      invariant multiset(a[..]) == old(multiset(a[..]))
    {
      InsertLast(a, i, sortType);
      i := i + 1;
    }
    assert AllFiles(a[..]);
    AdjacentSortedIsSorted(a[..], sortType);
  }

  /** One step of the insertion sort: moves a[i] left into the sorted a[..i]. */
  method InsertLast(a: array<Node>, i: nat, sortType: int)
    requires i < a.Length
    requires forall k :: 0 <= k < a.Length ==> IsFile(a[k])
    requires forall k :: 0 < k < i ==> InOrder(sortType, a[k - 1], a[k])
    modifies a
    ensures forall k :: 0 <= k < a.Length ==> IsFile(a[k])
    ensures forall k :: 0 < k <= i ==> InOrder(sortType, a[k - 1], a[k])
    ensures multiset(a[..]) == old(multiset(a[..]))
  {
    var j := i;
    while j > 0 && Compare(sortType, a[j - 1], a[j]) > 0
      invariant 0 <= j <= i
      invariant forall k :: 0 <= k < a.Length ==> IsFile(a[k])
      invariant forall k :: 0 < k < j ==> InOrder(sortType, a[k - 1], a[k])
      invariant forall k :: j < k <= i ==> InOrder(sortType, a[k - 1], a[k])
      invariant 0 < j < i ==> InOrder(sortType, a[j - 1], a[j + 1])
      invariant multiset(a[..]) == old(multiset(a[..]))
    {
      CompareAntisymmetric(sortType, a[j - 1], a[j]);
      Swap(a, j - 1);
      j := j - 1;
    }
  }

  method Swap(a: array<Node>, k: nat)
    requires k + 1 < a.Length
    modifies a
    ensures a[k] == old(a[k + 1]) && a[k + 1] == old(a[k])
    ensures forall m :: 0 <= m < a.Length && m != k && m != k + 1 ==> a[m] == old(a[m])
    ensures multiset(a[..]) == old(multiset(a[..]))
  {
    a[k], a[k + 1] := a[k + 1], a[k];
  }
}
