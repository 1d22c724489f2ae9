/**
 * Stable sorting of roster indices by a two-level score.
 *
 * Both sorts of the lineup engine (the batting-order rotation and the
 * per-inning fielding priority) are `Array.prototype.sort` calls over the
 * roster in its given order with a comparator that looks at two numbers.
 * `Array.prototype.sort` is stable, so players the comparator calls equal
 * keep their roster order: the roster index is the last tie-break.
 */
module IndexSort {

  /** The two numbers a comparator looks at, compared in this order. */
  datatype Score = Score(primary: real, secondary: real)

  /** Roster entry i sorts strictly before roster entry j. */
  predicate Before(sc: seq<Score>, i: nat, j: nat)
    requires i < |sc| && j < |sc|
  {
    || sc[i].primary < sc[j].primary
    || (sc[i].primary == sc[j].primary && sc[i].secondary < sc[j].secondary)
    || (sc[i].primary == sc[j].primary && sc[i].secondary == sc[j].secondary && i < j)
  }

  predicate InRange(sc: seq<Score>, s: seq<nat>)
  {
    forall k :: 0 <= k < |s| ==> s[k] < |sc|
  }

  /** No later element sorts strictly before an earlier one. */
  predicate Sorted(sc: seq<Score>, s: seq<nat>)
    requires InRange(sc, s)
  {
    forall a, b :: 0 <= a < b < |s| ==> !Before(sc, s[b], s[a])
  }

  predicate Distinct<T(==)>(s: seq<T>)
  {
    forall a, b :: 0 <= a < b < |s| ==> s[a] != s[b]
  }

  /** The indices 0, 1, ..., n-1 in order: the roster as given. */
  function Range(n: nat): (r: seq<nat>)
    ensures |r| == n
    ensures forall i :: 0 <= i < n ==> r[i] == i
  {
    if n == 0 then [] else Range(n - 1) + [n - 1]
  }

  /** s holds each roster index below n exactly once. */
  predicate IsPermutation(s: seq<nat>, n: nat)
  {
    multiset(s) == multiset(Range(n))
  }

  function Insert(sc: seq<Score>, k: nat, s: seq<nat>): (r: seq<nat>)
    requires InRange(sc, s) && k < |sc| && Sorted(sc, s)
    ensures InRange(sc, r) && Sorted(sc, r)
    ensures multiset(r) == multiset(s) + multiset{k}
  {
    if s == [] || !Before(sc, s[0], k) then
      [k] + s
    else
      var rest := Insert(sc, k, s[1..]);
      assert s == [s[0]] + s[1..];
      forall b | 0 <= b < |rest|
        ensures !Before(sc, rest[b], s[0])
      {
        assert rest[b] in multiset(rest);
        if rest[b] != k {
          assert rest[b] in multiset(s[1..]);
          var m :| 0 <= m < |s[1..]| && s[1..][m] == rest[b];
          assert s[m + 1] == rest[b];
        }
      }
      [s[0]] + rest
  }

  /** Insertion sort: the result is a sorted rearrangement of s. */
  function Sort(sc: seq<Score>, s: seq<nat>): (r: seq<nat>)
    requires InRange(sc, s)
    ensures InRange(sc, r) && Sorted(sc, r)
    ensures multiset(r) == multiset(s)
  {
    if s == [] then
      []
    else
      assert s == [s[0]] + s[1..];
      Insert(sc, s[0], Sort(sc, s[1..]))
  }

  lemma {:induction false} DistinctCounts<T>(s: seq<T>, x: T)
    requires Distinct(s)
    ensures multiset(s)[x] <= 1
  {
    if s != [] {
      assert s == [s[0]] + s[1..];
      assert Distinct(s[1..]);
      DistinctCounts(s[1..], x);
      if x == s[0] {
        assert x !in s[1..];
      }
    }
  }

  lemma {:induction false} SameMultisetDistinct<T>(s: seq<T>, t: seq<T>)
    requires multiset(s) == multiset(t) && Distinct(t)
    ensures Distinct(s)
  {
    forall a, b | 0 <= a < b < |s|
      ensures s[a] != s[b]
    {
      if s[a] == s[b] {
        var x := s[a];
        assert s == s[..a] + [x] + s[a + 1..b] + [x] + s[b + 1..];
        assert multiset(s)[x] >= 2;
        DistinctCounts(t, x);
      }
    }
  }

  lemma {:induction false} RangeDistinct(n: nat)
    ensures Distinct(Range(n))
  {
  }

  /** A permutation of the roster indices has every index once and nothing else. */
  lemma PermutationFacts(s: seq<nat>, n: nat)
    requires IsPermutation(s, n)
    ensures |s| == n && Distinct(s)
    ensures forall k: nat :: k in s <==> k < n
  {
    RangeDistinct(n);
    SameMultisetDistinct(s, Range(n));
    assert |s| == |multiset(s)| == |multiset(Range(n))| == n;
    forall k: nat
      ensures k in s <==> k < n
    {
      assert k in s <==> k in multiset(s);
      assert k in Range(n) <==> k in multiset(Range(n));
      if k < n {
        assert Range(n)[k] == k;
      }
    }
  }

  /** Distinct indices that are exactly 0..n-1 form a permutation of them. */
  lemma DistinctPermutation(s: seq<nat>, n: nat)
    requires Distinct(s)
    requires forall k: nat :: k in s <==> k < n
    ensures IsPermutation(s, n)
  {
    RangeDistinct(n);
    forall x: nat
      ensures multiset(s)[x] == multiset(Range(n))[x]
    {
      DistinctCounts(s, x);
      DistinctCounts(Range(n), x);
      assert x in multiset(s) <==> x in s;
      assert x in multiset(Range(n)) <==> x in Range(n);
      if x < n {
        assert Range(n)[x] == x;
        assert x in s;
      } else {
        assert x !in s;
        assert x !in Range(n);
      }
    }
    assert multiset(s) == multiset(Range(n));
  }

  /**
   * The roster indices in sorted order: every index exactly once, and each
   * strictly before the next (roster order being the final tie-break).
   */
  function SortedOrder(sc: seq<Score>): (r: seq<nat>)
    ensures IsPermutation(r, |sc|)
    ensures InRange(sc, r)
    ensures forall a, b :: 0 <= a < b < |r| ==> Before(sc, r[a], r[b])
  {
    var s := Range(|sc|);
    var r := Sort(sc, s);
    PermutationFacts(r, |sc|);
    r
  }

  /** Two sorted rearrangements of the same indices start with the same index. */
  lemma SameHead(sc: seq<Score>, s: seq<nat>, t: seq<nat>)
    requires InRange(sc, s) && InRange(sc, t)
    requires Sorted(sc, s) && Sorted(sc, t)
    requires multiset(s) == multiset(t) && s != []
    ensures t != [] && s[0] == t[0]
  {
    assert s[0] in multiset(t);
    var m :| 0 <= m < |t| && t[m] == s[0];
    assert t[0] in multiset(s);
    var m' :| 0 <= m' < |s| && s[m'] == t[0];
    if m != 0 && m' != 0 {
      assert !Before(sc, s[0], t[0]) && !Before(sc, t[0], s[0]);
    }
  }

  /**
   * A sorted arrangement is unique: two sorted rearrangements of the same
   * indices are equal, so the stable sort's output is fully determined.
   */
  lemma {:induction false} SortedUnique(sc: seq<Score>, s: seq<nat>, t: seq<nat>)
    requires InRange(sc, s) && InRange(sc, t)
    requires Sorted(sc, s) && Sorted(sc, t)
    requires multiset(s) == multiset(t)
    ensures s == t
  {
    if s == [] {
      assert |t| == |multiset(t)| == 0;
    } else {
      SameHead(sc, s, t);
      assert s == [s[0]] + s[1..];
      assert t == [t[0]] + t[1..];
      assert multiset(s) == multiset{s[0]} + multiset(s[1..]);
      assert multiset(t) == multiset{s[0]} + multiset(t[1..]);
      forall x
        ensures multiset(s[1..])[x] == multiset(t[1..])[x]
      {
        assert multiset(s)[x] == multiset{s[0]}[x] + multiset(s[1..])[x];
        assert multiset(t)[x] == multiset{s[0]}[x] + multiset(t[1..])[x];
      }
      assert multiset(s[1..]) == multiset(t[1..]);
      SortedUnique(sc, s[1..], t[1..]);
    }
  }

  /** The elements of xs in the order the indices of s name them. */
  function Arrange<T>(xs: seq<T>, s: seq<nat>): seq<T>
    requires forall k :: 0 <= k < |s| ==> s[k] < |xs|
  {
    seq(|s|, k requires 0 <= k < |s| => xs[s[k]])
  }

  lemma ArrangeAppend<T>(xs: seq<T>, a: seq<nat>, b: seq<nat>)
    requires forall k :: 0 <= k < |a| ==> a[k] < |xs|
    requires forall k :: 0 <= k < |b| ==> b[k] < |xs|
    ensures Arrange(xs, a + b) == Arrange(xs, a) + Arrange(xs, b)
  {
  }

  /** Taking out the element at p takes one copy of it out of the multiset. */
  lemma MultisetRemove<T>(v: seq<T>, p: nat)
    requires p < |v|
    ensures multiset(v) == multiset(v[..p] + v[p + 1..]) + multiset{v[p]}
  {
    assert v == v[..p] + [v[p]] + v[p + 1..];
  }

  lemma MultisetCancel<T>(a: multiset<T>, b: multiset<T>, x: T)
    requires a + multiset{x} == b + multiset{x}
    ensures a == b
  {
    forall y
      ensures a[y] == b[y]
    {
      assert (a + multiset{x})[y] == a[y] + multiset{x}[y];
      assert (b + multiset{x})[y] == b[y] + multiset{x}[y];
    }
  }

  /** Arranging without the index at p gives one copy fewer of the element it names. */
  lemma ArrangeRemove<T>(xs: seq<T>, v: seq<nat>, p: nat)
    requires forall k :: 0 <= k < |v| ==> v[k] < |xs|
    requires p < |v|
    ensures multiset(Arrange(xs, v)) == multiset(Arrange(xs, v[..p] + v[p + 1..])) + multiset{xs[v[p]]}
  {
    assert v == v[..p] + [v[p]] + v[p + 1..];
    ArrangeAppend(xs, v[..p] + [v[p]], v[p + 1..]);
    ArrangeAppend(xs, v[..p], [v[p]]);
    ArrangeAppend(xs, v[..p], v[p + 1..]);
  }

  /** Matching the last index of u with an equal one at p in v leaves two shorter sequences with equal multisets. */
  lemma ArrangeStep<T>(xs: seq<T>, u: seq<nat>, v: seq<nat>, p: nat)
    requires forall k :: 0 <= k < |u| ==> u[k] < |xs|
    requires forall k :: 0 <= k < |v| ==> v[k] < |xs|
    requires multiset(u) == multiset(v) && u != [] && p < |v| && v[p] == u[|u| - 1]
    ensures var u', v' := u[..|u| - 1], v[..p] + v[p + 1..];
      && (forall k :: 0 <= k < |u'| ==> u'[k] < |xs|)
      && (forall k :: 0 <= k < |v'| ==> v'[k] < |xs|)
      && multiset(u') == multiset(v')
      && multiset(Arrange(xs, u)) == multiset(Arrange(xs, u')) + multiset{xs[v[p]]}
      && multiset(Arrange(xs, v)) == multiset(Arrange(xs, v')) + multiset{xs[v[p]]}
  {
    var u', x := u[..|u| - 1], u[|u| - 1];
    var v' := v[..p] + v[p + 1..];
    assert u == u' + [x];
    MultisetRemove(v, p);
    MultisetCancel(multiset(u'), multiset(v'), x);
    assert forall k :: 0 <= k < |v'| ==> v'[k] == if k < p then v[k] else v[k + 1];
    ArrangeRemove(xs, v, p);
    ArrangeAppend(xs, u', [x]);
  }

  /** Arranging by two index sequences with the same multiset gives the same multiset of elements. */
  lemma {:induction false} ArrangeMultiset<T>(xs: seq<T>, u: seq<nat>, v: seq<nat>)
    requires forall k :: 0 <= k < |u| ==> u[k] < |xs|
    requires forall k :: 0 <= k < |v| ==> v[k] < |xs|
    requires multiset(u) == multiset(v)
    ensures multiset(Arrange(xs, u)) == multiset(Arrange(xs, v))
    decreases |u|
  {
    if u == [] {
      assert |v| == |multiset(v)| == 0;
    } else {
      assert u[|u| - 1] in multiset(v);
      var p :| 0 <= p < |v| && v[p] == u[|u| - 1];
      ArrangeStep(xs, u, v, p);
      ArrangeMultiset(xs, u[..|u| - 1], v[..p] + v[p + 1..]);
    }
  }

  /** Arranging by a permutation of the indices keeps exactly the same elements. */
  lemma ArrangePermutation<T>(xs: seq<T>, order: seq<nat>)
    requires IsPermutation(order, |xs|)
    ensures forall k :: 0 <= k < |order| ==> order[k] < |xs|
    ensures multiset(Arrange(xs, order)) == multiset(xs)
  {
    PermutationFacts(order, |xs|);
    forall k | 0 <= k < |order|
      ensures order[k] < |xs|
    {
      assert order[k] in order;
    }
    ArrangeMultiset(xs, order, Range(|xs|));
    assert Arrange(xs, Range(|xs|)) == xs;
  }
}
