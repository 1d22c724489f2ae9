/**
 * The per-inning greedy assignment, stated on values.
 *
 * Both generators (src/utils/lineupGenerator.js and the older script.js) run
 * the same algorithm over each player's same-type totals: sort the roster by
 * fewest active innings, then by smallest infield/outfield imbalance; walk the
 * positions in order, and for each one scan the sorted players, skipping the
 * ones already placed, keeping the first with the smallest total of that
 * position's type; everyone left over goes to the bench. The newer generator
 * adds historical totals to the current ones, the older one does not; that is
 * the only difference, and it lives in how each builds its tallies.
 */
module Greedy {
  import opened Wrappers
  import opened IndexSort

  datatype PositionType = Infield | Outfield | Bench

  /** The totals a player is compared by in one inning. */
  datatype Tally = Tally(infield: int, outfield: int)

  function Abs(x: int): nat
  {
    if x < 0 then -x else x
  }

  function Active(t: Tally): int
  {
    t.infield + t.outfield
  }

  function Imbalance(t: Tally): nat
  {
    Abs(t.infield - t.outfield)
  }

  function FieldingScores(t: seq<Tally>): seq<Score>
  {
    seq(|t|, i requires 0 <= i < |t| => Score(Active(t[i]) as real, Imbalance(t[i]) as real))
  }

  /**
   * The fielding sort's comparator, with roster order (the stable sort's
   * behaviour) as the final tie-break.
   */
  predicate FieldsFirst(t: seq<Tally>, i: nat, j: nat)
    requires i < |t| && j < |t|
  {
    || Active(t[i]) < Active(t[j])
    || (Active(t[i]) == Active(t[j]) && Imbalance(t[i]) < Imbalance(t[j]))
    || (Active(t[i]) == Active(t[j]) && Imbalance(t[i]) == Imbalance(t[j]) && i < j)
  }

  /** Every player once, fewest active innings first, then smallest imbalance, then roster order. */
  function FieldingOrder(t: seq<Tally>): (order: seq<nat>)
    ensures IsPermutation(order, |t|)
    ensures AllBelow(order, |t|)
    ensures forall a, b :: 0 <= a < b < |order| ==> FieldsFirst(t, order[a], order[b])
  {
    var sc := FieldingScores(t);
    var order := SortedOrder(sc);
    assert forall a, b :: 0 <= a < b < |order| ==> Before(sc, order[a], order[b]);
    order
  }

  predicate AllBelow(s: seq<nat>, n: nat)
  {
    forall k :: 0 <= k < |s| ==> s[k] < n
  }

  /** The total a position of type ty compares players by: none for a bench-type position. */
  function Weight(t: seq<Tally>, ty: PositionType, p: nat): int
    requires p < |t|
  {
    match ty
    case Infield => t[p].infield
    case Outfield => t[p].outfield
    case Bench => 0
  }

  /** One step of the scan: what the last element of s does to the choice made over the ones before it. */
  function ScanStep(t: seq<Tally>, prev: Option<nat>, s: seq<nat>, taken: seq<nat>, ty: PositionType): Option<nat>
    requires AllBelow(s, |t|) && s != [] && (prev.Some? ==> prev.value < |s| - 1)
  {
    var i := |s| - 1;
    var p := s[i];
    if p in taken then prev
    else if prev.None? then Some(i)
    else if ty == Infield && t[p].infield < t[s[prev.value]].infield then Some(i)
    else if ty == Outfield && t[p].outfield < t[s[prev.value]].outfield then Some(i)
    else prev
  }

  lemma PrefixBelow(s: seq<nat>, n: nat, i: nat)
    requires AllBelow(s, n) && i <= |s|
    ensures AllBelow(s[..i], n)
  {
    assert forall k :: 0 <= k < i ==> s[..i][k] == s[k];
  }

  /**
   * The "best so far" loop over s, skipping players already taken, giving
   * the index in s of its choice (the source's `bestPlayerIndex`): the first
   * free player is the first candidate, and a later one replaces it only
   * when its same-type total is strictly smaller.
   */
  function ScanLoop(t: seq<Tally>, s: seq<nat>, taken: seq<nat>, ty: PositionType): (best: Option<nat>)
    requires AllBelow(s, |t|)
    ensures best.Some? ==> best.value < |s|
    decreases |s|
  {
    if s == [] then None
    else
      PrefixBelow(s, |t|, |s| - 1);
      ScanStep(t, ScanLoop(t, s[..|s| - 1], taken, ty), s, taken, ty)
  }

  /**
   * What the loop chooses: None exactly when every player of s is taken,
   * and otherwise the first free player of s with the least total.
   */
  lemma {:induction false} ScanLoopFacts(t: seq<Tally>, s: seq<nat>, taken: seq<nat>, ty: PositionType)
    requires AllBelow(s, |t|)
    ensures var best := ScanLoop(t, s, taken, ty);
      && (best.None? <==> (forall k :: 0 <= k < |s| ==> s[k] in taken))
      && (best.Some? ==> s[best.value] !in taken)
      && (best.Some? ==>
            forall k :: 0 <= k < |s| && s[k] !in taken ==> Weight(t, ty, s[best.value]) <= Weight(t, ty, s[k]))
      && (best.Some? ==>
            forall k :: 0 <= k < |s| && s[k] !in taken && Weight(t, ty, s[k]) == Weight(t, ty, s[best.value]) ==>
              best.value <= k)
    decreases |s|
  {
    if s != [] {
      var i := |s| - 1;
      PrefixBelow(s, |t|, i);
      ScanLoopFacts(t, s[..i], taken, ty);
      assert forall k :: 0 <= k < i ==> s[..i][k] == s[k];
    }
  }

  /** The scan, with what it chooses. */
  function Scan(t: seq<Tally>, s: seq<nat>, taken: seq<nat>, ty: PositionType): (best: Option<nat>)
    requires AllBelow(s, |t|)
    ensures best.None? <==> (forall k :: 0 <= k < |s| ==> s[k] in taken)
    ensures best.Some? ==> best.value < |s| && s[best.value] !in taken
    ensures best.Some? ==>
      forall k :: 0 <= k < |s| && s[k] !in taken ==> Weight(t, ty, s[best.value]) <= Weight(t, ty, s[k])
    ensures best.Some? ==>
      forall k :: 0 <= k < |s| && s[k] !in taken && Weight(t, ty, s[k]) == Weight(t, ty, s[best.value]) ==>
        best.value <= k
  {
    ScanLoopFacts(t, s, taken, ty);
    ScanLoop(t, s, taken, ty)
  }

  /** The scan looks only at free players, so tallies that agree on them give the same choice. */
  lemma {:induction false} ScanAgrees(t: seq<Tally>, u: seq<Tally>, s: seq<nat>, taken: seq<nat>, ty: PositionType)
    requires |t| == |u| && AllBelow(s, |t|)
    requires forall k :: 0 <= k < |t| && k !in taken ==> t[k] == u[k]
    ensures Scan(t, s, taken, ty) == Scan(u, s, taken, ty)
  {
    LoopAgrees(t, u, s, taken, ty);
  }

  lemma {:induction false} LoopAgrees(t: seq<Tally>, u: seq<Tally>, s: seq<nat>, taken: seq<nat>, ty: PositionType)
    requires |t| == |u| && AllBelow(s, |t|)
    requires forall k :: 0 <= k < |t| && k !in taken ==> t[k] == u[k]
    ensures ScanLoop(t, s, taken, ty) == ScanLoop(u, s, taken, ty)
    decreases |s|
  {
    if s != [] {
      var i := |s| - 1;
      PrefixBelow(s, |t|, i);
      LoopAgrees(t, u, s[..i], taken, ty);
      ScanLoopFacts(t, s[..i], taken, ty);
      var prev := ScanLoop(t, s[..i], taken, ty);
      if prev.Some? {
        assert s[..i][prev.value] == s[prev.value];
      }
    }
  }

  /** The player a scan chose, if any. */
  function Chosen(s: seq<nat>, best: Option<nat>): Option<nat>
    requires best.Some? ==> best.value < |s|
  {
    match best
    case Some(i) => Some(s[i])
    case None => None
  }

  /** The players placed so far, in placement order. */
  function Taken(picks: seq<Option<nat>>): (r: seq<nat>)
    ensures forall k :: k in r <==> Some(k) in picks
  {
    if picks == [] then
      []
    else
      var prev := picks[..|picks| - 1];
      assert picks == prev + [picks[|picks| - 1]];
      match picks[|picks| - 1]
      case Some(k) => Taken(prev) + [k]
      case None => Taken(prev)
  }

  /** Position by position, who fills it (None: no free player was left). */
  function Fill(t: seq<Tally>, order: seq<nat>, types: seq<PositionType>): (picks: seq<Option<nat>>)
    requires AllBelow(order, |t|)
    ensures |picks| == |types|
    decreases |types|
  {
    if types == [] then
      []
    else
      var prev := Fill(t, order, types[..|types| - 1]);
      prev + [Chosen(order, Scan(t, order, Taken(prev), types[|types| - 1]))]
  }

  /** The players of order that were not placed, in order. */
  function Benched(order: seq<nat>, taken: seq<nat>): (bench: seq<nat>)
    ensures forall k :: k in bench <==> k in order && k !in taken
  {
    if order == [] then
      []
    else
      var last := order[|order| - 1];
      assert order == order[..|order| - 1] + [last];
      Benched(order[..|order| - 1], taken) + (if last in taken then [] else [last])
  }

  /** One more element of an order without repeats: it joins the bench unless taken, and was not on it before. */
  lemma BenchedStep(order: seq<nat>, taken: seq<nat>, i: nat)
    requires i < |order| && Distinct(order)
    ensures Benched(order[..i + 1], taken) == Benched(order[..i], taken) + (if order[i] in taken then [] else [order[i]])
    ensures order[i] !in Benched(order[..i], taken)
  {
    assert order[..i + 1][..i] == order[..i];
    assert order[i] !in order[..i];
  }

  /** One inning's outcome: who fills each position, and the bench in fielding order. */
  datatype Outcome = Outcome(picks: seq<Option<nat>>, bench: seq<nat>)

  function Assign(t: seq<Tally>, types: seq<PositionType>): (o: Outcome)
    ensures |o.picks| == |types|
  {
    var order := FieldingOrder(t);
    var picks := Fill(t, order, types);
    Outcome(picks, Benched(order, Taken(picks)))
  }

  /** What a player did in one inning. */
  datatype Role = Played(ty: PositionType) | Sat | Idle

  /** The first position a player fills, or |picks| when none. */
  function IndexOf(picks: seq<Option<nat>>, k: nat): (j: nat)
    ensures j <= |picks|
    ensures j < |picks| ==> picks[j] == Some(k)
    ensures forall i :: 0 <= i < j ==> picks[i] != Some(k)
  {
    if picks == [] then 0
    else if picks[0] == Some(k) then 0
    else 1 + IndexOf(picks[1..], k)
  }

  lemma {:induction false} IndexOfAppend(picks: seq<Option<nat>>, x: Option<nat>, k: nat)
    ensures IndexOf(picks + [x], k) ==
      if IndexOf(picks, k) < |picks| then IndexOf(picks, k)
      else if x == Some(k) then |picks| else |picks| + 1
  {
    if picks != [] && picks[0] != Some(k) {
      assert (picks + [x])[1..] == picks[1..] + [x];
      IndexOfAppend(picks[1..], x, k);
    }
  }

  function RoleOf(types: seq<PositionType>, o: Outcome, k: nat): Role
    requires |o.picks| == |types|
  {
    var j := IndexOf(o.picks, k);
    if j < |types| then Played(types[j])
    else if k in o.bench then Sat
    else Idle
  }

  // ---------------------------------------------------------------------
  // Properties of one inning
  // ---------------------------------------------------------------------

  lemma {:induction false} FillPrefix(t: seq<Tally>, order: seq<nat>, types: seq<PositionType>, j: nat)
    requires AllBelow(order, |t|) && j <= |types|
    ensures Fill(t, order, types)[..j] == Fill(t, order, types[..j])
    decreases |types|
  {
    if j < |types| {
      var prefix := types[..|types| - 1];
      FillPrefix(t, order, prefix, j);
      assert prefix[..j] == types[..j];
    } else {
      assert types[..j] == types;
    }
  }

  /** Position j is filled by the scan over the players still free after positions 0..j-1. */
  lemma PickAt(t: seq<Tally>, order: seq<nat>, types: seq<PositionType>, j: nat)
    requires AllBelow(order, |t|) && j < |types|
    ensures var picks := Fill(t, order, types);
      picks[j] == Chosen(order, Scan(t, order, Taken(picks[..j]), types[j]))
  {
    var picks := Fill(t, order, types);
    FillPrefix(t, order, types, j + 1);
    FillPrefix(t, order, types, j);
    var shorter := types[..j + 1];
    assert shorter[..|shorter| - 1] == types[..j];
    assert picks[..j + 1][..j] == picks[..j];
  }

  /** No player is placed twice. */
  lemma {:induction false} TakenDistinct(t: seq<Tally>, order: seq<nat>, types: seq<PositionType>)
    requires AllBelow(order, |t|)
    ensures Distinct(Taken(Fill(t, order, types)))
    ensures forall k :: k in Taken(Fill(t, order, types)) ==> k in order
    decreases |types|
  {
    if types != [] {
      var prev := Fill(t, order, types[..|types| - 1]);
      TakenDistinct(t, order, types[..|types| - 1]);
      var picks := prev + [Chosen(order, Scan(t, order, Taken(prev), types[|types| - 1]))];
      assert picks[..|picks| - 1] == prev;
    }
  }

  function Elements(s: seq<nat>): set<nat>
  {
    set x | x in s
  }

  lemma {:induction false} DistinctSetSize(s: seq<nat>)
    requires Distinct(s)
    ensures |Elements(s)| == |s|
  {
    if s != [] {
      var init := s[..|s| - 1];
      var last := s[|s| - 1];
      assert Distinct(init);
      DistinctSetSize(init);
      assert s == init + [last];
      assert Elements(s) == Elements(init) + {last};
      assert last !in Elements(init);
    } else {
      assert Elements(s) == {};
    }
  }

  lemma SubsetSize(a: set<nat>, b: set<nat>)
    requires a <= b
    ensures |b| == |a| + |b - a|
  {
    assert b == a + (b - a);
    assert a * (b - a) == {};
  }

  /** Distinct players drawn from order are at most as many, and all of order exactly when as many. */
  lemma Pigeonhole(order: seq<nat>, taken: seq<nat>)
    requires Distinct(order) && Distinct(taken)
    requires forall k :: k in taken ==> k in order
    ensures |taken| <= |order|
    ensures (forall k :: k in order ==> k in taken) <==> |taken| == |order|
  {
    var so := Elements(order);
    var st := Elements(taken);
    DistinctSetSize(order);
    DistinctSetSize(taken);
    assert st <= so;
    SubsetSize(st, so);
    if |taken| == |order| {
      assert so - st == {};
      forall k | k in order
        ensures k in taken
      {
        assert k in so;
      }
    }
    if forall k :: k in order ==> k in taken {
      assert so - st == {};
    }
  }

  /** Positions are filled in order while free players remain: after j positions, min(j, n) are placed. */
  lemma {:induction false} TakenCount(t: seq<Tally>, order: seq<nat>, types: seq<PositionType>)
    requires AllBelow(order, |t|) && Distinct(order)
    ensures |Taken(Fill(t, order, types))| == if |types| < |order| then |types| else |order|
    decreases |types|
  {
    if types != [] {
      var prev := Fill(t, order, types[..|types| - 1]);
      TakenCount(t, order, types[..|types| - 1]);
      TakenDistinct(t, order, types[..|types| - 1]);
      Pigeonhole(order, Taken(prev));
      var best := Scan(t, order, Taken(prev), types[|types| - 1]);
      var picks := prev + [Chosen(order, best)];
      assert picks[..|picks| - 1] == prev;
      if best.None? {
        assert forall k :: k in order ==> k in Taken(prev);
      } else {
        assert order[best.value] !in Taken(prev);
      }
    }
  }

  /**
   * Under-supply: position j is filled exactly when j is below the roster
   * size; the positions past the roster size stay empty.
   */
  lemma FilledIffPlayersLeft(t: seq<Tally>, types: seq<PositionType>, j: nat)
    requires j < |types|
    ensures Assign(t, types).picks[j].Some? <==> j < |t|
  {
    var order := FieldingOrder(t);
    PermutationFacts(order, |t|);
    var picks := Fill(t, order, types);
    PickAt(t, order, types, j);
    FillPrefix(t, order, types, j);
    TakenCount(t, order, types[..j]);
    TakenDistinct(t, order, types[..j]);
    Pigeonhole(order, Taken(picks[..j]));
  }

  /**
   * The greedy rule: position j takes a free player with the least total of
   * its type, and among those the one the fielding sort puts first; it stays
   * empty only when every player is already placed.
   */
  lemma PickIsGreedy(t: seq<Tally>, types: seq<PositionType>, j: nat)
    requires j < |types|
    ensures var o := Assign(t, types);
      var before := Taken(o.picks[..j]);
      && (o.picks[j].None? <==> forall q: nat :: q < |t| ==> q in before)
      && (o.picks[j].Some? ==>
            var b := o.picks[j].value;
            && b < |t| && b !in before
            && (forall q: nat :: q < |t| && q !in before ==> Weight(t, types[j], b) <= Weight(t, types[j], q))
            && (forall q: nat :: q < |t| && q !in before && q != b && Weight(t, types[j], q) == Weight(t, types[j], b) ==>
                  FieldsFirst(t, b, q)))
  {
    var order := FieldingOrder(t);
    PermutationFacts(order, |t|);
    var picks := Fill(t, order, types);
    var before := Taken(picks[..j]);
    PickAt(t, order, types, j);
    var best := Scan(t, order, before, types[j]);
    assert picks[j] == Chosen(order, best);
    if best.None? {
      forall q: nat | q < |t|
        ensures q in before
      {
        assert q in order;
        var a :| 0 <= a < |order| && order[a] == q;
      }
    } else {
      var i := best.value;
      var b := order[i];
      forall q: nat | q < |t| && q !in before
        ensures Weight(t, types[j], b) <= Weight(t, types[j], q)
      {
        assert q in order;
        var a :| 0 <= a < |order| && order[a] == q;
      }
      forall q: nat | q < |t| && q !in before && q != b && Weight(t, types[j], q) == Weight(t, types[j], b)
        ensures FieldsFirst(t, b, q)
      {
        assert q in order;
        var a :| 0 <= a < |order| && order[a] == q;
        assert i <= a && i != a;
      }
    }
  }

  /**
   * Partition: the placed players and the bench together hold every player
   * exactly once.
   */
  lemma InningPartition(t: seq<Tally>, types: seq<PositionType>)
    ensures var o := Assign(t, types);
      && Distinct(Taken(o.picks) + o.bench)
      && forall k: nat :: k in Taken(o.picks) + o.bench <==> k < |t|
  {
    var order := FieldingOrder(t);
    PermutationFacts(order, |t|);
    var o := Assign(t, types);
    TakenDistinct(t, order, types);
    BenchedDistinct(order, Taken(o.picks));
    var all := Taken(o.picks) + o.bench;
    forall a, b | 0 <= a < b < |all|
      ensures all[a] != all[b]
    {
      if a < |Taken(o.picks)| && b >= |Taken(o.picks)| {
        assert all[b] in o.bench;
        assert all[a] in Taken(o.picks);
      }
    }
  }

  lemma {:induction false} BenchedDistinct(order: seq<nat>, taken: seq<nat>)
    requires Distinct(order)
    ensures Distinct(Benched(order, taken))
  {
    if order != [] {
      var init := order[..|order| - 1];
      assert Distinct(init);
      BenchedDistinct(init, taken);
      assert order[|order| - 1] !in init;
    }
  }

  /** Each player's role in the inning: every player plays or sits, exactly one of the two. */
  lemma RoleFacts(t: seq<Tally>, types: seq<PositionType>, k: nat)
    requires k < |t|
    ensures var o := Assign(t, types);
      && (RoleOf(types, o, k).Played? <==> k in Taken(o.picks))
      && (RoleOf(types, o, k) == Sat <==> k in o.bench)
      && RoleOf(types, o, k) != Idle
  {
    var o := Assign(t, types);
    InningPartition(t, types);
    var j := IndexOf(o.picks, k);
    if j == |o.picks| {
      assert Some(k) !in o.picks;
    }
    assert k in Taken(o.picks) + o.bench;
  }

  lemma FillStep(t0: seq<Tally>, order: seq<nat>, types: seq<PositionType>, j: nat, pick: Option<nat>)
    requires AllBelow(order, |t0|) && j < |types|
    requires pick == Chosen(order, Scan(t0, order, Taken(Fill(t0, order, types[..j])), types[j]))
    ensures Fill(t0, order, types[..j + 1]) == Fill(t0, order, types[..j]) + [pick]
  {
    assert types[..j + 1][..j] == types[..j];
  }

  lemma TakenStep(picks: seq<Option<nat>>, pick: Option<nat>)
    ensures Taken(picks + [pick]) == if pick.Some? then Taken(picks) + [pick.value] else Taken(picks)
  {
    assert (picks + [pick])[..|picks|] == picks;
  }

  /** The placed players and the bench together are the players 0..n-1, each once. */
  ghost predicate Partitions(o: Outcome, n: nat)
  {
    && Distinct(Taken(o.picks) + o.bench)
    && forall k: nat :: k in Taken(o.picks) + o.bench <==> k < n
  }

  lemma AssignPartitions(t: seq<Tally>, types: seq<PositionType>)
    ensures Partitions(Assign(t, types), |t|)
  {
    InningPartition(t, types);
  }

  /** A player filling two positions would be taken twice. */
  lemma {:induction false} TakenAt(picks: seq<Option<nat>>, a: nat, b: nat)
    requires a < b < |picks| && picks[a].Some? && picks[a] == picks[b]
    ensures !Distinct(Taken(picks))
  {
    var prev := picks[..|picks| - 1];
    var r := Taken(picks);
    assert picks == prev + [picks[|picks| - 1]];
    if b < |prev| {
      TakenAt(prev, a, b);
      var u := Taken(prev);
      var i, j :| 0 <= i < j < |u| && u[i] == u[j];
      assert r[i] == u[i] && r[j] == u[j];
    } else {
      var x := picks[a].value;
      assert prev[a] == Some(x);
      var u := Taken(prev);
      var i :| 0 <= i < |u| && u[i] == x;
      assert r == u + [x];
      assert r[i] == r[|u|];
    }
  }

  lemma DistinctSplit(u: seq<nat>, v: seq<nat>)
    requires Distinct(u + v)
    ensures Distinct(u) && Distinct(v)
    ensures forall x :: x in u ==> x !in v
  {
    forall a, b | 0 <= a < b < |u|
      ensures u[a] != u[b]
    {
      assert (u + v)[a] == u[a] && (u + v)[b] == u[b];
    }
    forall a, b | 0 <= a < b < |v|
      ensures v[a] != v[b]
    {
      assert (u + v)[|u| + a] == v[a] && (u + v)[|u| + b] == v[b];
    }
    forall a, b | 0 <= a < |u| && 0 <= b < |v|
      ensures u[a] != v[b]
    {
      assert (u + v)[a] == u[a] && (u + v)[|u| + b] == v[b];
    }
  }

  /** min(positions, players) players take the field; the other players sit. */
  lemma BenchSize(t: seq<Tally>, types: seq<PositionType>)
    ensures var o := Assign(t, types);
      var fielded := if |types| < |t| then |types| else |t|;
      |Taken(o.picks)| == fielded && |o.bench| == |t| - fielded
  {
    var order := FieldingOrder(t);
    PermutationFacts(order, |t|);
    TakenCount(t, order, types);
    var o := Assign(t, types);
    AssignPartitions(t, types);
    var all := Taken(o.picks) + o.bench;
    forall k | k in all
      ensures k in order
    {
    }
    forall k | k in order
      ensures k in all
    {
    }
    Pigeonhole(order, all);
  }
}
