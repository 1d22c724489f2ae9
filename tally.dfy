/**
 * A JavaScript object used as a counter (`t[k] = (t[k] || 0) + 1`): its
 * (key, count) entries in insertion order. Incrementing a present key keeps
 * its place; a new key is appended with count 1.
 */
module Tallies {
  type Tally<K> = seq<(K, nat)>

  /** The count stored under k, 0 when k is absent (the `|| 0` of the source). */
  function CountAt<K(==)>(t: Tally<K>, k: K): nat
  {
    if t == [] then 0 else if t[0].0 == k then t[0].1 else CountAt(t[1..], k)
  }

  function Increment<K(==)>(t: Tally<K>, k: K): Tally<K>
  {
    if t == [] then [(k, 1)]
    else if t[0].0 == k then [(k, t[0].1 + 1)] + t[1..]
    else [t[0]] + Increment(t[1..], k)
  }

  predicate HasKey<K(==)>(t: Tally<K>, k: K)
  {
    exists i :: 0 <= i < |t| && t[i].0 == k
  }

  /** Every key once, every count positive: what a counter object can hold. */
  predicate WellFormed<K(==)>(t: Tally<K>)
  {
    && (forall i, j :: 0 <= i < j < |t| ==> t[i].0 != t[j].0)
    && (forall i :: 0 <= i < |t| ==> t[i].1 > 0)
  }

  /** Incrementing k adds one to k's count and leaves every other count alone. */
  lemma {:induction false} IncrementCount<K>(t: Tally<K>, k: K, v: K)
    ensures CountAt(Increment(t, k), v) == CountAt(t, v) + (if k == v then 1 else 0)
  {
    if t != [] && t[0].0 != k {
      IncrementCount(t[1..], k, v);
      assert Increment(t, k)[1..] == Increment(t[1..], k);
    }
  }

  /** Incrementing adds k to the keys and nothing else. */
  lemma {:induction false} IncrementKeys<K>(t: Tally<K>, k: K, v: K)
    ensures HasKey(Increment(t, k), v) <==> HasKey(t, v) || v == k
  {
    var r := Increment(t, k);
    if t == [] {
      assert r[0].0 == k;
    } else if t[0].0 == k {
      assert r[0].0 == k;
      if HasKey(t, v) {
        var i :| 0 <= i < |t| && t[i].0 == v;
        assert r[i].0 == v;
      }
      if HasKey(r, v) {
        var i :| 0 <= i < |r| && r[i].0 == v;
        assert t[i].0 == v;
      }
    } else {
      IncrementKeys(t[1..], k, v);
      var r' := Increment(t[1..], k);
      assert r == [t[0]] + r';
      if HasKey(t, v) && v != t[0].0 {
        var i :| 0 <= i < |t| && t[i].0 == v;
        assert t[1..][i - 1].0 == v;
      }
      if HasKey(r, v) && v != t[0].0 {
        var i :| 0 <= i < |r| && r[i].0 == v;
        assert r'[i - 1].0 == v;
      }
      if HasKey(r', v) {
        var i :| 0 <= i < |r'| && r'[i].0 == v;
        assert r[i + 1].0 == v;
      }
      if HasKey(t[1..], v) {
        var i :| 0 <= i < |t[1..]| && t[1..][i].0 == v;
        assert t[i + 1].0 == v;
      }
      assert r[0].0 == t[0].0;
    }
  }

  lemma {:induction false} IncrementWellFormed<K>(t: Tally<K>, k: K)
    requires WellFormed(t)
    ensures WellFormed(Increment(t, k))
  {
    if t != [] && t[0].0 != k {
      IncrementWellFormed(t[1..], k);
      var r := Increment(t[1..], k);
      forall j | 0 <= j < |r|
        ensures r[j].0 != t[0].0
      {
        IncrementKeys(t[1..], k, r[j].0);
        assert HasKey(r, r[j].0);
        if HasKey(t[1..], r[j].0) {
          var m :| 0 <= m < |t[1..]| && t[1..][m].0 == r[j].0;
          assert t[1 + m].0 == r[j].0;
        }
      }
      assert Increment(t, k) == [t[0]] + r;
    }
  }
}
