/**
 * Operations on a store's local mirror of a server table: a sequence of rows,
 * each carrying the server-assigned id that `idOf` reads. These are the array
 * operations the stores patch their mirrors with: keeping the rows that pass a
 * test, finding the first row with an id, replacing that row, and removing
 * every row with an id.
 */
module Mirror {

  /** The rows of `s` that pass `keep`, in their original order. */
  function Filter<T(!new)>(s: seq<T>, keep: T -> bool): (r: seq<T>)
    ensures |r| <= |s|
  {
    if s == [] then [] else (if keep(s[0]) then [s[0]] else []) + Filter(s[1..], keep)
  }

  /**
   * Filtering keeps each row that passes as often as it occurs, and drops
   * every row that fails.
   */
  lemma {:induction false} FilterCount<T(!new)>(s: seq<T>, keep: T -> bool)
    ensures forall x :: multiset(Filter(s, keep))[x] == if keep(x) then multiset(s)[x] else 0
    ensures forall x :: x in Filter(s, keep) <==> x in s && keep(x)
  {
    if s != [] {
      FilterCount(s[1..], keep);
      assert s == [s[0]] + s[1..];
    }
  }

  /** `r` can be obtained from `s` by deleting entries, keeping the order of the rest. */
  ghost predicate IsSubsequence<T>(r: seq<T>, s: seq<T>)
    decreases |s|
  {
    r == [] || (s != [] && ((r[0] == s[0] && IsSubsequence(r[1..], s[1..])) || IsSubsequence(r, s[1..])))
  }

  /** Filtering never reorders: the rows kept appear in the order they had. */
  lemma {:induction false} FilterIsSubsequence<T(!new)>(s: seq<T>, keep: T -> bool)
    ensures IsSubsequence(Filter(s, keep), s)
  {
    if s != [] {
      FilterIsSubsequence(s[1..], keep);
      var r := Filter(s, keep);
      if keep(s[0]) {
        assert r[0] == s[0] && r[1..] == Filter(s[1..], keep);
      } else {
        assert r == Filter(s[1..], keep);
      }
    }
  }

  /** Filtering a sequence with a row in front filters that row, then the rest. */
  lemma FilterCons<T(!new)>(x: T, s: seq<T>, keep: T -> bool)
    ensures Filter([x] + s, keep) == (if keep(x) then [x] else []) + Filter(s, keep)
  {
    assert ([x] + s)[0] == x && ([x] + s)[1..] == s;
  }

  /** The step of `FilterConcat` for a first part `[x] + t`. */
  lemma FilterConcatStep<T(!new)>(x: T, t: seq<T>, b: seq<T>, keep: T -> bool)
    requires Filter(t + b, keep) == Filter(t, keep) + Filter(b, keep)
    ensures Filter([x] + t + b, keep) == Filter([x] + t, keep) + Filter(b, keep)
  {
    var head := if keep(x) then [x] else [];
    assert [x] + t + b == [x] + (t + b);
    FilterCons(x, t + b, keep);
    FilterCons(x, t, keep);
    assert head + (Filter(t, keep) + Filter(b, keep)) == (head + Filter(t, keep)) + Filter(b, keep);
  }

  /** Filtering a concatenation filters each part. */
  lemma {:induction false} FilterConcat<T(!new)>(a: seq<T>, b: seq<T>, keep: T -> bool)
    ensures Filter(a + b, keep) == Filter(a, keep) + Filter(b, keep)
  {
    if a == [] {
      assert a + b == b;
    } else {
      FilterConcat(a[1..], b, keep);
      FilterConcatStep(a[0], a[1..], b, keep);
      assert [a[0]] + a[1..] == a;
    }
  }

  /** A filter that every row passes returns the sequence itself. */
  lemma {:induction false} FilterKeepsAll<T(!new)>(s: seq<T>, keep: T -> bool)
    requires forall i :: 0 <= i < |s| ==> keep(s[i])
    ensures Filter(s, keep) == s
  {
    if s != [] {
      FilterKeepsAll(s[1..], keep);
    }
  }

  /** Two tests that agree on every row filter alike. */
  lemma {:induction false} FilterAgree<T(!new)>(s: seq<T>, p: T -> bool, q: T -> bool)
    requires forall i :: 0 <= i < |s| ==> p(s[i]) == q(s[i])
    ensures Filter(s, p) == Filter(s, q)
  {
    if s != [] {
      FilterAgree(s[1..], p, q);
    }
  }

  /** Two filters in a row are one filter by the conjunction of their tests. */
  lemma {:induction false} FilterTwice<T(!new)>(s: seq<T>, first: T -> bool, second: T -> bool, both: T -> bool)
    requires forall x :: both(x) == (first(x) && second(x))
    ensures Filter(Filter(s, first), second) == Filter(s, both)
  {
    if s != [] {
      FilterTwice(s[1..], first, second, both);
      var head := if first(s[0]) then [s[0]] else [];
      FilterConcat(head, Filter(s[1..], first), second);
    }
  }

  /** No row before position `k` has id `id`. */
  ghost predicate NoneBefore<T>(s: seq<T>, idOf: T -> int, id: int, k: int)
    requires 0 <= k <= |s|
  {
    forall j :: 0 <= j < k ==> idOf(s[j]) != id
  }

  /** The position of the first row with id `id`, or -1 when there is none. */
  function FindIndex<T>(s: seq<T>, idOf: T -> int, id: int): (i: int)
    ensures -1 <= i < |s|
    ensures i == -1 <==> forall k :: 0 <= k < |s| ==> idOf(s[k]) != id
    ensures 0 <= i ==> idOf(s[i]) == id && NoneBefore(s, idOf, id, i)
  {
    if s == [] then -1
    else if idOf(s[0]) == id then 0
    else
      var j := FindIndex(s[1..], idOf, id);
      if j == -1 then -1 else j + 1
  }

  /** `s` with its first row of id `id` replaced by `row`; `s` itself when no row has that id. */
  function ReplaceFirst<T>(s: seq<T>, idOf: T -> int, id: int, row: T): (r: seq<T>)
    ensures |r| == |s|
    ensures forall k :: 0 <= k < |s| ==>
      r[k] == if idOf(s[k]) == id && NoneBefore(s, idOf, id, k) then row else s[k]
  {
    var i := FindIndex(s, idOf, id);
    if i == -1 then s else s[i := row]
  }

  /** The test that keeps the rows whose id is not `id`. */
  function OtherId<T>(idOf: T -> int, id: int): T -> bool {
    x => idOf(x) != id
  }

  /** `s` without any row of id `id`. */
  function RemoveId<T(!new)>(s: seq<T>, idOf: T -> int, id: int): (r: seq<T>)
    ensures forall x :: multiset(r)[x] == if idOf(x) == id then 0 else multiset(s)[x]
    ensures forall x :: x in r <==> x in s && idOf(x) != id
  {
    FilterCount(s, OtherId(idOf, id));
    Filter(s, OtherId(idOf, id))
  }

  /** Removing an id keeps the other rows in their original order. */
  lemma RemoveIdKeepsOrder<T(!new)>(s: seq<T>, idOf: T -> int, id: int)
    ensures IsSubsequence(RemoveId(s, idOf, id), s)
  {
    FilterIsSubsequence(s, OtherId(idOf, id));
  }

  /** Removing the id of a row just prepended also removes that row. */
  lemma RemovePrepended<T(!new)>(row: T, s: seq<T>, idOf: T -> int)
    ensures RemoveId([row] + s, idOf, idOf(row)) == RemoveId(s, idOf, idOf(row))
  {
    FilterConcat([row], s, OtherId(idOf, idOf(row)));
  }

  /** No two rows share an id. */
  ghost predicate UniqueIds<T>(s: seq<T>, idOf: T -> int) {
    forall i, j :: 0 <= i < j < |s| ==> idOf(s[i]) != idOf(s[j])
  }

  /** Prepending a row whose id is new keeps the ids unique. */
  lemma PrependKeepsUnique<T>(row: T, s: seq<T>, idOf: T -> int)
    requires UniqueIds(s, idOf)
    requires forall k :: 0 <= k < |s| ==> idOf(s[k]) != idOf(row)
    ensures UniqueIds([row] + s, idOf)
  {
    var r := [row] + s;
    forall i, j | 0 <= i < j < |r| ensures idOf(r[i]) != idOf(r[j]) {
      assert r[j] == s[j - 1];
      if i > 0 { assert r[i] == s[i - 1]; }
    }
  }

  /** Replacing a row by one with the same id keeps the ids unique. */
  lemma ReplaceFirstKeepsUnique<T>(s: seq<T>, idOf: T -> int, id: int, row: T)
    requires UniqueIds(s, idOf) && idOf(row) == id
    ensures UniqueIds(ReplaceFirst(s, idOf, id, row), idOf)
  {
    var r := ReplaceFirst(s, idOf, id, row);
    forall k | 0 <= k < |s| ensures idOf(r[k]) == idOf(s[k]) {
      if idOf(s[k]) == id && NoneBefore(s, idOf, id, k) {
        assert r[k] == row;
      }
    }
  }

  /** Filtering keeps the ids unique. */
  lemma {:induction false} FilterKeepsUnique<T(!new)>(s: seq<T>, keep: T -> bool, idOf: T -> int)
    requires UniqueIds(s, idOf)
    ensures UniqueIds(Filter(s, keep), idOf)
  {
    if s != [] {
      var tail := Filter(s[1..], keep);
      assert UniqueIds(s[1..], idOf) by {
        forall i, j | 0 <= i < j < |s[1..]| ensures idOf(s[1..][i]) != idOf(s[1..][j]) {
          assert s[1..][i] == s[i + 1] && s[1..][j] == s[j + 1];
        }
      }
      FilterKeepsUnique(s[1..], keep, idOf);
      if keep(s[0]) {
        forall k | 0 <= k < |tail| ensures idOf(tail[k]) != idOf(s[0]) {
          FilterCount(s[1..], keep);
          assert tail[k] in tail;
          var m :| 0 <= m < |s[1..]| && s[1..][m] == tail[k];
          assert s[m + 1] == tail[k];
        }
        PrependKeepsUnique(s[0], tail, idOf);
      }
    }
  }

  /** Removing an id keeps the ids unique. */
  lemma RemoveIdKeepsUnique<T(!new)>(s: seq<T>, idOf: T -> int, id: int)
    requires UniqueIds(s, idOf)
    ensures UniqueIds(RemoveId(s, idOf, id), idOf)
  {
    FilterKeepsUnique(s, OtherId(idOf, id), idOf);
  }
}
