/**
 * `Array.prototype.filter` and `Array.prototype.sort` over sequences. The sort is
 * stable (as ECMAScript 2019 requires) and is given by a comparator `le(a, b)`,
 * "a may come before b", which is what a comparator returning a value <= 0 says.
 */
module Seqs {

  /** `s.filter(p)`: the elements satisfying `p`, in their order. */
  function Filter<T>(s: seq<T>, p: T -> bool): (r: seq<T>)
    ensures |r| <= |s|
    decreases |s|
  {
    if s == [] then [] else (if p(s[0]) then [s[0]] else []) + Filter(s[1..], p)
  }

  /** Every kept element satisfies the predicate. */
  lemma {:induction false} FilterSatisfies<T>(s: seq<T>, p: T -> bool)
    ensures forall i | 0 <= i < |Filter(s, p)| :: p(Filter(s, p)[i])
    decreases |s|
  {
    if s != [] {
      FilterSatisfies(s[1..], p);
    }
  }

  /** An element is kept exactly when it is in the input and satisfies the predicate. */
  lemma {:induction false} FilterMembership<T>(s: seq<T>, p: T -> bool, x: T)
    ensures x in Filter(s, p) <==> x in s && p(x)
    decreases |s|
  {
    if s != [] {
      FilterMembership(s[1..], p, x);
      assert s == [s[0]] + s[1..];
    }
  }

  /** The kept elements occur as often as in the input; the others not at all. */
  lemma {:induction false} FilterCounts<T>(s: seq<T>, p: T -> bool, x: T)
    ensures multiset(Filter(s, p))[x] == if p(x) then multiset(s)[x] else 0
    decreases |s|
  {
    if s != [] {
      FilterCounts(s[1..], p, x);
      assert s == [s[0]] + s[1..];
    }
  }

  /** Filtering distributes over concatenation. */
  lemma {:induction false} FilterAppend<T>(a: seq<T>, b: seq<T>, p: T -> bool)
    ensures Filter(a + b, p) == Filter(a, p) + Filter(b, p)
    decreases |a|
  {
    if a == [] {
      assert a + b == b;
    } else {
      var c := a + b;
      assert c[0] == a[0];
      assert c[1..] == a[1..] + b;
      FilterAppend(a[1..], b, p);
      var h := if p(a[0]) then [a[0]] else [];
      assert Filter(c, p) == h + (Filter(a[1..], p) + Filter(b, p));
      assert Filter(a, p) == h + Filter(a[1..], p);
    }
  }

  /** A filter that keeps everything is the identity. */
  lemma {:induction false} FilterKeepsAll<T>(s: seq<T>, p: T -> bool)
    requires forall i | 0 <= i < |s| :: p(s[i])
    ensures Filter(s, p) == s
    decreases |s|
  {
    if s != [] {
      FilterKeepsAll(s[1..], p);
    }
  }

  /** Filtering twice with the same predicate is filtering once. */
  lemma FilterIdempotent<T>(s: seq<T>, p: T -> bool)
    ensures Filter(Filter(s, p), p) == Filter(s, p)
  {
    FilterSatisfies(s, p);
    FilterKeepsAll(Filter(s, p), p);
  }

  /** Filtering a three-element sequence, written out. */
  lemma FilterThree<T>(x: T, y: T, z: T, p: T -> bool)
    ensures Filter([x, y, z], p) == (if p(x) then [x] else []) + (if p(y) then [y] else []) + (if p(z) then [z] else [])
  {
    assert [x, y, z][1..] == [y, z];
    assert [y, z][1..] == [z];
    assert [z][1..] == [];
    assert Filter([z], p) == (if p(z) then [z] else []) + Filter([], p);
    assert Filter([y, z], p) == (if p(y) then [y] else []) + Filter([z], p);
  }

  /** `le` orders every pair and chains: a comparator the sort can rely on. */
  ghost predicate TotalPreorder<T(!new)>(le: (T, T) -> bool) {
    && (forall a, b :: le(a, b) || le(b, a))
    && (forall a, b, c :: le(a, b) && le(b, c) ==> le(a, c))
  }

  predicate Sorted<T>(s: seq<T>, le: (T, T) -> bool) {
    forall i, j | 0 <= i < j < |s| :: le(s[i], s[j])
  }

  /** Puts `x` after the leading elements that may come before it. */
  function Insert<T>(x: T, s: seq<T>, le: (T, T) -> bool): (r: seq<T>)
    ensures multiset(r) == multiset(s) + multiset{x}
    ensures |r| == |s| + 1
    decreases |s|
  {
    if s == [] then [x]
    else
      assert s == [s[0]] + s[1..];
      if le(s[0], x) then [s[0]] + Insert(x, s[1..], le) else [x] + s
  }

  /** `s.sort(cmp)` as a stable insertion sort: later elements are inserted after equal ones. */
  function Sort<T>(s: seq<T>, le: (T, T) -> bool): (r: seq<T>)
    ensures multiset(r) == multiset(s)
    ensures |r| == |s|
    decreases |s|
  {
    if s == [] then []
    else
      assert s == s[..|s| - 1] + [s[|s| - 1]];
      Insert(s[|s| - 1], Sort(s[..|s| - 1], le), le)
  }

  lemma {:induction false} InsertSorted<T(!new)>(x: T, s: seq<T>, le: (T, T) -> bool)
    requires TotalPreorder(le)
    requires Sorted(s, le)
    ensures Sorted(Insert(x, s, le), le)
    decreases |s|
  {
    if s != [] && le(s[0], x) {
      InsertSorted(x, s[1..], le);
      var r := Insert(x, s, le);
      var t := Insert(x, s[1..], le);
      assert r == [s[0]] + t;
      forall k | 0 <= k < |t|
        ensures le(s[0], t[k])
      {
        assert t[k] in multiset(t);
        assert t[k] in multiset(s[1..]) + multiset{x};
        if t[k] != x {
          var m :| 0 <= m < |s[1..]| && s[1..][m] == t[k];
          assert s[m + 1] == t[k];
        }
      }
    }
  }

  /** The sorted sequence is ordered by the comparator. */
  lemma {:induction false} SortSorted<T(!new)>(s: seq<T>, le: (T, T) -> bool)
    requires TotalPreorder(le)
    ensures Sorted(Sort(s, le), le)
    decreases |s|
  {
    if s != [] {
      SortSorted(s[..|s| - 1], le);
      InsertSorted(s[|s| - 1], Sort(s[..|s| - 1], le), le);
    }
  }

  /** Sorting neither adds nor drops an element. */
  lemma SortMembership<T>(s: seq<T>, le: (T, T) -> bool, x: T)
    ensures x in Sort(s, le) <==> x in s
  {
    assert x in Sort(s, le) <==> x in multiset(Sort(s, le));
    assert x in s <==> x in multiset(s);
  }

  /** Sorting a block whose every element satisfies `p`: sorted, a permutation, and still all `p`. */
  lemma SortedBlock<T(!new)>(g: seq<T>, le: (T, T) -> bool, p: T -> bool)
    requires TotalPreorder(le)
    requires forall i | 0 <= i < |g| :: p(g[i])
    ensures Sorted(Sort(g, le), le)
    ensures multiset(Sort(g, le)) == multiset(g)
    ensures forall i | 0 <= i < |Sort(g, le)| :: p(Sort(g, le)[i])
  {
    var s := Sort(g, le);
    SortSorted(g, le);
    forall i | 0 <= i < |s|
      ensures p(s[i])
    {
      SortMembership(g, le, s[i]);
    }
  }

  /**
   * Three blocks, each sorted on its own and concatenated: slicing at the block lengths
   * gives back sorted permutations of the blocks, each element still satisfying its block's test.
   */
  lemma SortedBlocks<T(!new)>(g1: seq<T>, g2: seq<T>, g3: seq<T>, le: (T, T) -> bool, p1: T -> bool, p2: T -> bool, p3: T -> bool)
    requires TotalPreorder(le)
    requires forall i | 0 <= i < |g1| :: p1(g1[i])
    requires forall i | 0 <= i < |g2| :: p2(g2[i])
    requires forall i | 0 <= i < |g3| :: p3(g3[i])
    ensures var v := Sort(g1, le) + Sort(g2, le) + Sort(g3, le);
            var a := |g1|;
            var b := |g2|;
            && |v| == a + b + |g3|
            && Sorted(v[..a], le) && multiset(v[..a]) == multiset(g1)
            && Sorted(v[a..a + b], le) && multiset(v[a..a + b]) == multiset(g2)
            && Sorted(v[a + b..], le) && multiset(v[a + b..]) == multiset(g3)
            && (forall i | 0 <= i < a :: p1(v[i]))
            && (forall i | a <= i < a + b :: p2(v[i]))
            && (forall i | a + b <= i < |v| :: p3(v[i]))
  {
    var s1, s2, s3 := Sort(g1, le), Sort(g2, le), Sort(g3, le);
    SortedBlock(g1, le, p1);
    SortedBlock(g2, le, p2);
    SortedBlock(g3, le, p3);
    BlockSlices(s1, s2, s3, p1, p2, p3);
  }

  /** Three consecutive parts, each all `p1`, `p2`, `p3`: slicing gives them back and each index satisfies its part's test. */
  lemma BlockSlices<T>(s1: seq<T>, s2: seq<T>, s3: seq<T>, p1: T -> bool, p2: T -> bool, p3: T -> bool)
    requires forall i | 0 <= i < |s1| :: p1(s1[i])
    requires forall i | 0 <= i < |s2| :: p2(s2[i])
    requires forall i | 0 <= i < |s3| :: p3(s3[i])
    ensures var v := s1 + s2 + s3;
            && v[..|s1|] == s1 && v[|s1|..|s1| + |s2|] == s2 && v[|s1| + |s2|..] == s3
            && (forall i | 0 <= i < |s1| :: p1(v[i]))
            && (forall i | |s1| <= i < |s1| + |s2| :: p2(v[i]))
            && (forall i | |s1| + |s2| <= i < |v| :: p3(v[i]))
  {
    var v := s1 + s2 + s3;
    ConcatSlices(s1, s2, s3);
    forall i | 0 <= i < |s1|
      ensures p1(v[i])
    {
      assert v[i] == s1[i];
    }
    forall i | |s1| <= i < |s1| + |s2|
      ensures p2(v[i])
    {
      assert v[i] == s2[i - |s1|];
    }
    forall i | |s1| + |s2| <= i < |v|
      ensures p3(v[i])
    {
      assert v[i] == s3[i - |s1| - |s2|];
    }
  }

  /** Slicing a concatenation of three parts at the part lengths gives the parts back. */
  lemma ConcatSlices<T>(s1: seq<T>, s2: seq<T>, s3: seq<T>)
    ensures (s1 + s2 + s3)[..|s1|] == s1
    ensures (s1 + s2 + s3)[|s1|..|s1| + |s2|] == s2
    ensures (s1 + s2 + s3)[|s1| + |s2|..] == s3
  {
  }

  /** `s.map(f)`. */
  function Map<T>(s: seq<T>, f: T -> T): (r: seq<T>)
    ensures |r| == |s|
    ensures forall i | 0 <= i < |s| :: r[i] == f(s[i])
  {
    seq(|s|, i requires 0 <= i < |s| => f(s[i]))
  }

  /** Mapping distributes over concatenation. */
  lemma MapAppend<T>(a: seq<T>, b: seq<T>, f: T -> T)
    ensures Map(a + b, f) == Map(a, f) + Map(b, f)
  {
  }

  /** A map that never changes the test commutes with filtering. */
  lemma {:induction false} MapFilter<T(!new)>(s: seq<T>, f: T -> T, p: T -> bool)
    requires forall x :: p(f(x)) == p(x)
    ensures Filter(Map(s, f), p) == Map(Filter(s, p), f)
    decreases |s|
  {
    if s != [] {
      var m := Map(s, f);
      assert m[1..] == Map(s[1..], f);
      MapFilter(s[1..], f, p);
      var h := if p(s[0]) then [s[0]] else [];
      MapAppend(h, Filter(s[1..], p), f);
    }
  }

  /** A map that never changes the comparator's answer commutes with insertion. */
  lemma {:induction false} MapInsert<T(!new)>(x: T, s: seq<T>, le: (T, T) -> bool, f: T -> T)
    requires forall a, b :: le(f(a), f(b)) == le(a, b)
    ensures Insert(f(x), Map(s, f), le) == Map(Insert(x, s, le), f)
    decreases |s|
  {
    if s != [] {
      var m := Map(s, f);
      assert m[1..] == Map(s[1..], f);
      if le(s[0], x) {
        MapInsert(x, s[1..], le, f);
        MapAppend([s[0]], Insert(x, s[1..], le), f);
      } else {
        MapAppend([x], s, f);
      }
    }
  }

  /** A map that never changes the comparator's answer commutes with sorting. */
  lemma {:induction false} MapSort<T(!new)>(s: seq<T>, le: (T, T) -> bool, f: T -> T)
    requires forall a, b :: le(f(a), f(b)) == le(a, b)
    ensures Sort(Map(s, f), le) == Map(Sort(s, le), f)
    decreases |s|
  {
    if s != [] {
      var m := Map(s, f);
      var init := s[..|s| - 1];
      assert m[..|m| - 1] == Map(init, f);
      MapSort(init, le, f);
      MapInsert(s[|s| - 1], Sort(init, le), le, f);
    }
  }
}
