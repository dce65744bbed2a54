/**
 * `Array.prototype.filter` and `Array.prototype.find` over sequences, and the
 * facts about them the store's queries are proved from.
 */
module Sequences {
  import opened Wrappers

  /** The elements of `s` that satisfy `p`, in their order in `s` (`s.filter(p)`). */
  function Filter<T(!new)>(s: seq<T>, p: T -> bool): (r: seq<T>)
    ensures |r| <= |s|
    ensures forall x :: x in r <==> x in s && p(x)
    decreases |s|
  {
    if s == [] then [] else (if p(s[0]) then [s[0]] else []) + Filter(s[1..], p)
  }

  /** Filtering distributes over concatenation. */
  lemma {:induction false} FilterAppend<T(!new)>(a: seq<T>, b: seq<T>, p: T -> bool)
    ensures Filter(a + b, p) == Filter(a, p) + Filter(b, p)
    decreases |a|
  {
    if a == [] {
      assert a + b == b;
    } else {
      assert (a + b)[1..] == a[1..] + b;
      FilterAppend(a[1..], b, p);
    }
  }

  /** The position of the first element of `s` that satisfies `p` (the search behind `s.find(p)`). */
  function FirstIndex<T>(s: seq<T>, p: T -> bool): (r: Option<nat>)
    ensures r.None? <==> forall i :: 0 <= i < |s| ==> !p(s[i])
    ensures r.Some? ==> r.value < |s| && p(s[r.value]) && forall i :: 0 <= i < r.value ==> !p(s[i])
    decreases |s|
  {
    if s == [] then None
    else if p(s[0]) then Some(0)
    else match FirstIndex(s[1..], p)
      case None => None
      case Some(i) => Some(i + 1)
  }

  /** `s.find(p)`: the first element of `s` that satisfies `p`, if any. */
  function Find<T>(s: seq<T>, p: T -> bool): (r: Option<T>)
    ensures r.None? <==> forall i :: 0 <= i < |s| ==> !p(s[i])
    ensures r.Some? ==> exists i :: 0 <= i < |s| && s[i] == r.value && p(s[i]) && forall k :: 0 <= k < i ==> !p(s[k])
  {
    match FirstIndex(s, p)
    case None => None
    case Some(i) => Some(s[i])
  }

  /** Appending elements after a match does not change which element is found first. */
  lemma {:induction false} FirstIndexAppend<T>(a: seq<T>, b: seq<T>, p: T -> bool)
    ensures FirstIndex(a + b, p) == (if FirstIndex(a, p).Some? then FirstIndex(a, p)
                                     else match FirstIndex(b, p)
                                          case None => None
                                          case Some(i) => Some(|a| + i))
    decreases |a|
  {
    if a == [] {
      assert a + b == b;
    } else {
      assert (a + b)[0] == a[0];
      assert (a + b)[1..] == a[1..] + b;
      FirstIndexAppend(a[1..], b, p);
    }
  }

  /** Every earlier element of `s` stands in relation `before` to every later one. */
  ghost predicate Chain<T>(s: seq<T>, before: (T, T) -> bool) {
    forall i, j :: 0 <= i < j < |s| ==> before(s[i], s[j])
  }

  /** Filtering keeps the relative order of what it keeps. */
  lemma {:induction false} FilterKeepsChain<T(!new)>(s: seq<T>, p: T -> bool, before: (T, T) -> bool)
    requires Chain(s, before)
    ensures Chain(Filter(s, p), before)
    decreases |s|
  {
    if s != [] {
      var tail := Filter(s[1..], p);
      FilterKeepsChain(s[1..], p, before);
      forall t | 0 <= t < |tail| ensures before(s[0], tail[t]) {
        assert tail[t] in tail;
        var k :| 0 <= k < |s[1..]| && s[1..][k] == tail[t];
        assert s[k + 1] == tail[t];
      }
      var r := Filter(s, p);
      if p(s[0]) {
        assert r == [s[0]] + tail;
        forall i, j | 0 <= i < j < |r| ensures before(r[i], r[j]) {
          if i == 0 {
            assert r[j] == tail[j - 1];
          } else {
            assert r[i] == tail[i - 1] && r[j] == tail[j - 1];
          }
        }
      } else {
        assert r == tail;
      }
    }
  }

  /**
   * What the body of an inner loop `for (j = i + 1; j < m; j++)` appends,
   * when round (i, j) appends `entry(i, j)`: the entries for j = i + 1 .. m - 1 in order.
   */
  function RowEntries<T>(i: nat, m: nat, entry: (nat, nat) -> seq<T>): seq<T>
    decreases m
  {
    if m <= i + 1 then [] else RowEntries(i, m - 1, entry) + entry(i, m - 1)
  }

  /** What the nested loop appends in its first `n` rounds of `i`: those rows, in order. */
  function PairEntries<T>(n: nat, m: nat, entry: (nat, nat) -> seq<T>): seq<T>
  {
    if n == 0 then [] else PairEntries(n - 1, m, entry) + RowEntries(n - 1, m, entry)
  }

  /** Whatever a row holds comes from a round j after i. */
  lemma {:induction false} RowEntriesSound<T>(i: nat, m: nat, entry: (nat, nat) -> seq<T>, x: T)
    requires x in RowEntries(i, m, entry)
    ensures exists j: nat :: i < j < m && x in entry(i, j)
    decreases m
  {
    if x in RowEntries(i, m - 1, entry) {
      RowEntriesSound(i, m - 1, entry, x);
    } else {
      assert x in entry(i, m - 1);
    }
  }

  /** Whatever a round j after i appends is in the row. */
  lemma {:induction false} RowEntriesComplete<T>(i: nat, m: nat, entry: (nat, nat) -> seq<T>, j: nat, x: T)
    requires i < j < m && x in entry(i, j)
    ensures x in RowEntries(i, m, entry)
    decreases m
  {
    if j < m - 1 {
      RowEntriesComplete(i, m - 1, entry, j, x);
    }
  }

  /** Whatever the nested loop appends comes from a round (i, j) with i < j < m and i < n. */
  lemma {:induction false} PairEntriesSound<T>(n: nat, m: nat, entry: (nat, nat) -> seq<T>, x: T)
    requires x in PairEntries(n, m, entry)
    ensures exists i: nat, j: nat :: i < j < m && i < n && x in entry(i, j)
  {
    if x in PairEntries(n - 1, m, entry) {
      PairEntriesSound(n - 1, m, entry, x);
    } else {
      RowEntriesSound(n - 1, m, entry, x);
    }
  }

  /** Whatever a round (i, j) with i < j < m and i < n appends is appended. */
  lemma {:induction false} PairEntriesComplete<T>(n: nat, m: nat, entry: (nat, nat) -> seq<T>, i: nat, j: nat, x: T)
    requires i < j < m && i < n && x in entry(i, j)
    ensures x in PairEntries(n, m, entry)
  {
    if i < n - 1 {
      PairEntriesComplete(n - 1, m, entry, i, j, x);
    } else {
      RowEntriesComplete(i, m, entry, j, x);
    }
  }
}
