// List operations the modelled code uses: comprehension filters, Python slicing,
// order-keeping de-duplication and `sorted` on strings.
module Seqs {
  import opened Base

  /** `[x for x in s if keep(x)]`. */
  function Filter<T(!new)>(s: seq<T>, keep: T -> bool): (r: seq<T>)
    ensures |r| <= |s|
    ensures forall x :: x in r <==> x in s && keep(x)
  {
    if s == [] then []
    else
      var rest := Filter(s[1..], keep);
      assert forall x :: x in s <==> x == s[0] || x in s[1..];
      if keep(s[0]) then [s[0]] + rest else rest
  }

  lemma {:induction false} FilterAppend<T(!new)>(a: seq<T>, b: seq<T>, keep: T -> bool)
    ensures Filter(a + b, keep) == Filter(a, keep) + Filter(b, keep)
  {
    if a == [] {
      assert a + b == b;
    } else {
      assert (a + b)[1..] == a[1..] + b;
      FilterAppend(a[1..], b, keep);
    }
  }

  lemma FilterSingle<T(!new)>(x: T, keep: T -> bool)
    ensures Filter([x], keep) == if keep(x) then [x] else []
  {
    assert [x][1..] == [];
  }

  lemma {:induction false} FilterAll<T(!new)>(s: seq<T>, keep: T -> bool)
    requires forall i :: 0 <= i < |s| ==> keep(s[i])
    ensures Filter(s, keep) == s
  {
    if s != [] {
      FilterAll(s[1..], keep);
    }
  }

  /** `[f(x) for x in s]`. */
  function Map<A, B>(f: A -> B, s: seq<A>): (r: seq<B>)
    ensures |r| == |s|
    ensures forall k :: 0 <= k < |s| ==> r[k] == f(s[k])
  {
    if s == [] then [] else Map(f, s[..|s| - 1]) + [f(s[|s| - 1])]
  }

  lemma MapStep<A, B>(f: A -> B, s: seq<A>, i: nat)
    requires i < |s|
    ensures Map(f, s[..i + 1]) == Map(f, s[..i]) + [f(s[i])]
  {
    assert s[..i + 1][..i] == s[..i];
  }

  /** `f(0) + f(1) + ... + f(n - 1)`: the items a loop appends, `f(i)` in round `i`. */
  function Concat<T>(f: nat -> seq<T>, n: nat): seq<T> {
    if n == 0 then [] else Concat(f, n - 1) + f(n - 1)
  }

  lemma {:induction false} ConcatLength<T>(f: nat -> seq<T>, n: nat, m: nat)
    requires forall i: nat :: i < n ==> |f(i)| >= m
    ensures |Concat(f, n)| >= n * m
  {
    if n > 0 {
      ConcatLength(f, n - 1, m);
      assert (n - 1) * m + m == n * m;
    }
  }

  /** Python's `s[k:]` for any integer `k`: a negative `k` counts from the end
      (so `s[-n:]` is the last `n` elements), and `-0` is `0`. */
  function SliceFrom<T>(s: seq<T>, k: int): (r: seq<T>)
    ensures k >= 0 ==> r == s[Min(k, |s|)..]
    ensures k < 0 ==> r == s[Max(0, |s| + k)..]
    ensures |r| <= |s| && r == s[|s| - |r|..]
  {
    if k >= 0 then s[Min(k, |s|)..] else s[Max(0, |s| + k)..]
  }

  /** Python's `s[a:b]` for `0 <= a`, `0 <= b`: both bounds are clamped. */
  function Slice<T>(s: seq<T>, a: nat, b: nat): (r: seq<T>)
    ensures |r| == Max(0, Min(b, |s|) - Min(a, |s|))
  {
    var lo := Min(a, |s|);
    var hi := Min(b, |s|);
    if lo <= hi then s[lo..hi] else []
  }

  predicate NoDuplicates<T(==)>(s: seq<T>) {
    forall i, j :: 0 <= i < j < |s| ==> s[i] != s[j]
  }

  /** The first occurrence of every element, in order (the effect of a loop that
      appends an item only when it is not in a `seen` set). */
  function Dedup<T(==,!new)>(s: seq<T>): (r: seq<T>)
    ensures NoDuplicates(r)
    ensures forall x :: x in r <==> x in s
    ensures |r| <= |s|
  {
    if s == [] then []
    else
      var d := Dedup(s[..|s| - 1]);
      assert forall x :: x in s <==> x in s[..|s| - 1] || x == s[|s| - 1];
      if s[|s| - 1] in d then d else d + [s[|s| - 1]]
  }

  lemma {:induction false} DedupOfDistinct<T(!new)>(s: seq<T>)
    requires NoDuplicates(s)
    ensures Dedup(s) == s
  {
    if s != [] {
      DedupOfDistinct(s[..|s| - 1]);
      assert s[|s| - 1] !in s[..|s| - 1];
    }
  }

  lemma DedupSnoc<T(!new)>(s: seq<T>, x: T)
    ensures Dedup(s + [x]) == if x in Dedup(s) then Dedup(s) else Dedup(s) + [x]
  {
    assert (s + [x])[..|s|] == s;
  }

  /** `r` keeps the order of first occurrence in `s`: when `x` comes before `y` in
      `r`, `x` occurs in the input at a place before which `y` has not occurred. */
  ghost predicate FirstOccurrenceOrder<T>(s: seq<T>, r: seq<T>) {
    forall i, j :: 0 <= i < j < |r| ==> exists a :: 0 <= a < |s| && s[a] == r[i] && r[j] !in s[..a + 1]
  }

  lemma {:induction false} DedupFirstOccurrence<T(!new)>(s: seq<T>)
    ensures FirstOccurrenceOrder(s, Dedup(s))
  {
    if s != [] {
      var m := |s| - 1;
      var init := s[..m];
      DedupFirstOccurrence(init);
      var d := Dedup(init);
      var r := Dedup(s);
      forall i, j | 0 <= i < j < |r|
        ensures exists a :: 0 <= a < |s| && s[a] == r[i] && r[j] !in s[..a + 1]
      {
        if j < |d| {
          var a :| 0 <= a < |init| && init[a] == d[i] && d[j] !in init[..a + 1];
          assert s[..a + 1] == init[..a + 1];
          assert s[a] == r[i] && r[j] !in s[..a + 1];
        } else {
          assert r == d + [s[m]] && r[j] == s[m] && s[m] !in init;
          assert d[i] in init;
          var a :| 0 <= a < |init| && init[a] == d[i];
          assert s[..a + 1] == init[..a + 1];
          assert forall x :: x in init[..a + 1] ==> x in init;
        }
      }
    }
  }

  // ---------------------------------------------------------------------------
  // `sorted` on strings: lexicographic order of code points
  // ---------------------------------------------------------------------------

  predicate StrLe(a: string, b: string) {
    a == [] || (b != [] && (a[0] < b[0] || (a[0] == b[0] && StrLe(a[1..], b[1..]))))
  }

  lemma {:induction false} StrLeTotal(a: string, b: string)
    ensures StrLe(a, b) || StrLe(b, a)
  {
    if a != [] && b != [] && a[0] == b[0] {
      StrLeTotal(a[1..], b[1..]);
    }
  }

  lemma {:induction false} StrLeAntisymmetric(a: string, b: string)
    requires StrLe(a, b) && StrLe(b, a)
    ensures a == b
  {
    if a != [] && b != [] {
      StrLeAntisymmetric(a[1..], b[1..]);
      assert a == [a[0]] + a[1..];
      assert b == [b[0]] + b[1..];
    }
  }

  lemma {:induction false} StrLeTransitive(a: string, b: string, c: string)
    requires StrLe(a, b) && StrLe(b, c)
    ensures StrLe(a, c)
  {
    if a != [] && b != [] && c != [] && a[0] == b[0] && b[0] == c[0] {
      StrLeTransitive(a[1..], b[1..], c[1..]);
    }
  }

  predicate SortedStrings(s: seq<string>) {
    forall i, j :: 0 <= i < j < |s| ==> StrLe(s[i], s[j])
  }

  /** Filtering a sorted list keeps it sorted. */
  lemma {:induction false} FilterSorted(s: seq<string>, keep: string -> bool)
    requires SortedStrings(s)
    ensures SortedStrings(Filter(s, keep))
  {
    if s != [] {
      var rest := Filter(s[1..], keep);
      FilterSorted(s[1..], keep);
      if keep(s[0]) {
        var r := [s[0]] + rest;
        forall j | 0 < j < |r| ensures StrLe(r[0], r[j]) {
          assert r[j] in s[1..];
          var m :| 0 <= m < |s[1..]| && s[1..][m] == r[j];
          assert s[m + 1] == r[j];
        }
        forall i, j | 0 <= i < j < |r| ensures StrLe(r[i], r[j]) {
          if i > 0 {
            assert r[i] == rest[i - 1] && r[j] == rest[j - 1];
          }
        }
      }
    }
  }

  function Insert(x: string, s: seq<string>): (r: seq<string>)
    requires SortedStrings(s)
    ensures SortedStrings(r)
    ensures multiset(r) == multiset(s) + multiset{x}
  {
    if s == [] then [x]
    else if StrLe(x, s[0]) then
      assert forall j :: 0 <= j < |s| ==> StrLe(x, s[j]) by {
        forall j | 0 <= j < |s| ensures StrLe(x, s[j]) {
          if j > 0 { StrLeTransitive(x, s[0], s[j]); }
        }
      }
      [x] + s
    else
      StrLeTotal(x, s[0]);
      var rest := Insert(x, s[1..]);
      assert s == [s[0]] + s[1..];
      assert forall y :: y in multiset(rest) ==> StrLe(s[0], y) by {
        forall y | y in multiset(rest) ensures StrLe(s[0], y) {
          assert y == x || y in multiset(s[1..]);
          if y != x {
            assert y in s[1..];
          }
        }
      }
      assert forall j :: 0 <= j < |rest| ==> rest[j] in multiset(rest);
      [s[0]] + rest
  }

  /** Python's `sorted(s)` on strings. */
  function Sort(s: seq<string>): (r: seq<string>)
    ensures SortedStrings(r)
    ensures multiset(r) == multiset(s)
  {
    if s == [] then []
    else
      assert s == s[..|s| - 1] + [s[|s| - 1]];
      Insert(s[|s| - 1], Sort(s[..|s| - 1]))
  }

  lemma SortMembers(s: seq<string>)
    ensures forall x :: x in Sort(s) <==> x in s
  {
    var r := Sort(s);
    assert forall x :: x in r <==> x in multiset(r);
    assert forall x :: x in s <==> x in multiset(s);
  }

  /** `sorted(set(s))`: each value once, in increasing order. */
  function SortedSet(s: seq<string>): (r: seq<string>)
    ensures SortedStrings(r) && NoDuplicates(r)
    ensures forall x :: x in r <==> x in s
  {
    var d := Dedup(s);
    var r := Sort(d);
    assert forall x :: x in r <==> x in multiset(d);
    SameCountsNoDuplicates(d, r);
    r
  }

  lemma SameCountsNoDuplicates(d: seq<string>, r: seq<string>)
    requires NoDuplicates(d) && multiset(r) == multiset(d)
    ensures NoDuplicates(r)
  {
    forall i, j | 0 <= i < j < |r| ensures r[i] != r[j] {
      if r[i] == r[j] {
        RepeatedCount(r, i, j);
        DistinctCount(d, r[i]);
      }
    }
  }

  lemma RepeatedCount<T>(r: seq<T>, i: nat, j: nat)
    requires i < j < |r| && r[i] == r[j]
    ensures multiset(r)[r[i]] >= 2
  {
    assert r == r[..i] + [r[i]] + r[i + 1..j] + [r[j]] + r[j + 1..];
  }

  lemma {:induction false} DistinctCount<T>(s: seq<T>, x: T)
    requires NoDuplicates(s)
    ensures multiset(s)[x] <= 1
  {
    if s != [] {
      var t := s[..|s| - 1];
      assert s == t + [s[|s| - 1]];
      DistinctCount(t, x);
      if x == s[|s| - 1] {
        assert x !in t;
      }
    }
  }
}
