/**
 * The batting-order rotation of src/utils/lineupGenerator.js
 * (rotateBattingOrder): each player's average past batting slot and the
 * spread of those slots decide who bats earlier in the next game.
 */
module Rotation {
  import opened Wrappers
  import opened Records
  import opened History
  import opened IndexSort
  import opened Tallies

  /** The weighted slot sum of a tally: every slot times its count. */
  function WeightSum(t: Tally<int>): int
  {
    if t == [] then 0 else WeightSum(t[..|t| - 1]) + t[|t| - 1].0 * t[|t| - 1].1
  }

  /** The number of games a tally records. */
  function CountSum(t: Tally<int>): int
  {
    if t == [] then 0 else CountSum(t[..|t| - 1]) + t[|t| - 1].1
  }

  /** The occurrence list: each slot of the tally repeated as often as it was used, entry by entry. */
  function Occurrences(t: Tally<int>): seq<int>
  {
    if t == [] then [] else Occurrences(t[..|t| - 1]) + seq(t[|t| - 1].1, _ => t[|t| - 1].0)
  }

  /** The sum of the squared distances of a list of slots from a mean. */
  function SquaredDeviations(ps: seq<int>, mean: real): real
  {
    if ps == [] then 0.0
    else
      var d := ps[|ps| - 1] as real - mean;
      SquaredDeviations(ps[..|ps| - 1], mean) + d * d
  }

  /** A player's average past slot and the spread of those slots. */
  datatype Standing = Standing(average: real, variance: real)

  /** Where a player without usable history is placed: the middle of the order. */
  function DefaultAverage(n: nat): real
  {
    (n + 1) as real / 2.0
  }

  /** The spread assigned to a player without history, marking them as needing variety. */
  const NoSpread: real := 999.0

  /**
   * A player's standing: the default for a missing record or one with no
   * games; otherwise the mean slot over the recorded games (the default
   * when none recorded a slot) and the population variance of the
   * occurrence list (NoSpread when it is empty).
   */
  function StandingOf(stat: Option<HistStat>, n: nat): Standing
  {
    if stat.None? || stat.value.gamesPlayed == 0 then Standing(DefaultAverage(n), NoSpread)
    else
      var t := stat.value.battingPositions;
      var total := CountSum(t);
      var avg := if total > 0 then WeightSum(t) as real / total as real else DefaultAverage(n);
      var ps := Occurrences(t);
      Standing(avg, if |ps| > 0 then SquaredDeviations(ps, avg) / |ps| as real else NoSpread)
  }

  /** One pass over the tally's entries: weighted slot sum, number of games and the occurrence list. */
  method EntryTotals(t: Tally<int>) returns (totalWeight: int, totalGames: int, positions: seq<int>)
    ensures totalWeight == WeightSum(t) && totalGames == CountSum(t) && positions == Occurrences(t)
  {
    totalWeight, totalGames := 0, 0;
    positions := [];
    var i := 0;
    while i < |t|
      invariant 0 <= i <= |t|
      invariant totalWeight == WeightSum(t[..i]) && totalGames == CountSum(t[..i])
      invariant positions == Occurrences(t[..i])
    {
      assert t[..i + 1][..i] == t[..i];
      var (pos, count) := t[i];
      totalWeight := totalWeight + pos * count;
      totalGames := totalGames + count;
      var j := 0;
      while j < count
        invariant 0 <= j <= count
        invariant positions == Occurrences(t[..i]) + seq(j, _ => pos)
      {
        positions := positions + [pos];
        j := j + 1;
      }
      i := i + 1;
    }
    assert t[..i] == t;
  }

  /** The reduction over the occurrence list: the sum of squared distances from the mean. */
  method DeviationSum(positions: seq<int>, avg: real) returns (sum: real)
    ensures sum == SquaredDeviations(positions, avg)
  {
    sum := 0.0;
    var k := 0;
    while k < |positions|
      invariant 0 <= k <= |positions|
      invariant sum == SquaredDeviations(positions[..k], avg)
    {
      assert positions[..k + 1][..k] == positions[..k];
      var d := positions[k] as real - avg;
      sum := sum + d * d;
      k := k + 1;
    }
    assert positions[..k] == positions;
  }

  method ComputeStanding(stat: Option<HistStat>, n: nat) returns (s: Standing)
    ensures s == StandingOf(stat, n)
  {
    if stat.None? || stat.value.gamesPlayed == 0 {
      return Standing(DefaultAverage(n), NoSpread);
    }
    var totalWeight, totalGames, positions := EntryTotals(stat.value.battingPositions);
    var avg := if totalGames > 0 then totalWeight as real / totalGames as real else DefaultAverage(n);
    var variance := NoSpread;
    if |positions| > 0 {
      var sum := DeviationSum(positions, avg);
      variance := sum / |positions| as real;
    }
    s := Standing(avg, variance);
  }

  /** Players stuck in few slots get pushed up: 3 below spread 1, 1.5 below spread 3. */
  function Boost(variance: real): real
  {
    if variance < 1.0 then 3.0 else if variance < 3.0 then 1.5 else 0.0
  }

  function Adjusted(s: Standing): real
  {
    s.average + Boost(s.variance)
  }

  /** Sort key: higher adjusted average first, then lower spread, then roster order. */
  function SortKey(s: Standing): Score
  {
    Score(-Adjusted(s), s.variance)
  }

  function SortKeys(st: seq<Standing>): (sc: seq<Score>)
    ensures |sc| == |st|
  {
    seq(|st|, i requires 0 <= i < |st| => SortKey(st[i]))
  }

  function Lookup(stats: map<string, HistStat>, name: string): Option<HistStat>
  {
    if name in stats then Some(stats[name]) else None
  }

  function Standings(players: seq<Player>, stats: map<string, HistStat>): (st: seq<Standing>)
    ensures |st| == |players|
  {
    seq(|players|, i requires 0 <= i < |players| => StandingOf(Lookup(stats, players[i].name), |players|))
  }

  /** The roster indices in the order the rotation puts them. */
  function RotationOrder(players: seq<Player>, stats: map<string, HistStat>): (order: seq<nat>)
    ensures IsPermutation(order, |players|)
    ensures forall k :: 0 <= k < |order| ==> order[k] < |players|
  {
    var order := SortedOrder(SortKeys(Standings(players, stats)));
    assert InRange(SortKeys(Standings(players, stats)), order);
    order
  }

  function Rotated(players: seq<Player>, stats: map<string, HistStat>): seq<Player>
  {
    Arrange(players, RotationOrder(players, stats))
  }

  method RotateBattingOrder(players: seq<Player>, stats: map<string, HistStat>) returns (rotated: seq<Player>)
    ensures rotated == Rotated(players, stats)
  {
    if |players| == 0 {
      return players;
    }
    var standings: seq<Standing> := [];
    var i := 0;
    while i < |players|
      invariant 0 <= i <= |players|
      invariant standings == Standings(players, stats)[..i]
    {
      var s := ComputeStanding(Lookup(stats, players[i].name), |players|);
      standings := standings + [s];
      i := i + 1;
    }
    assert standings == Standings(players, stats);
    var order := SortedOrder(SortKeys(standings));
    assert InRange(SortKeys(standings), order);
    rotated := Arrange(players, order);
  }

  // ---------------------------------------------------------------------
  // Properties of the rotation
  // ---------------------------------------------------------------------

  /** The rotation only reorders: the same players, each as often as on the roster. */
  lemma RotationIsPermutation(players: seq<Player>, stats: map<string, HistStat>)
    ensures |Rotated(players, stats)| == |players|
    ensures multiset(Rotated(players, stats)) == multiset(players)
  {
    ArrangePermutation(players, RotationOrder(players, stats));
  }

  /**
   * Position a of the new order holds the roster player order[a], and for
   * any two positions a < b the earlier player has the higher adjusted
   * average, or the same one and a lower spread, or both equal and comes
   * first on the roster.
   */
  lemma RotationOrdered(players: seq<Player>, stats: map<string, HistStat>)
    ensures var order, st := RotationOrder(players, stats), Standings(players, stats);
      && (forall a :: 0 <= a < |order| ==> Rotated(players, stats)[a] == players[order[a]])
      && (forall a, b :: 0 <= a < b < |order| ==>
            var x, y := st[order[a]], st[order[b]];
            || Adjusted(x) > Adjusted(y)
            || (Adjusted(x) == Adjusted(y) && x.variance < y.variance)
            || (Adjusted(x) == Adjusted(y) && x.variance == y.variance && order[a] < order[b]))
  {
    var order, st := RotationOrder(players, stats), Standings(players, stats);
    var sc := SortKeys(st);
    forall a, b | 0 <= a < b < |order|
      ensures var x, y := st[order[a]], st[order[b]];
        || Adjusted(x) > Adjusted(y)
        || (Adjusted(x) == Adjusted(y) && x.variance < y.variance)
        || (Adjusted(x) == Adjusted(y) && x.variance == y.variance && order[a] < order[b])
    {
      assert Before(sc, order[a], order[b]);
    }
  }

  /** A tally whose slots are all below m weighs at most m times its count. */
  lemma {:induction false} WeightBelow(t: Tally<int>, m: int)
    requires forall j :: 0 <= j < |t| ==> t[j].0 <= m
    ensures WeightSum(t) <= m * CountSum(t)
  {
    if t != [] {
      var init := t[..|t| - 1];
      assert forall j :: 0 <= j < |init| ==> init[j] == t[j];
      WeightBelow(init, m);
      var (v, c) := t[|t| - 1];
      assert v * c <= m * c by {
        assert (m - v) * c >= 0;
      }
    }
  }

  lemma DivAtMost(x: real, y: real, m: real)
    requires y > 0.0 && x <= m * y
    ensures x / y <= m
  {
    assert x / y * y == x;
  }

  /** A player with no games, or whose recorded slots all lie before slot n, scores below n + 3. */
  lemma AdjustedBelowLast(stat: Option<HistStat>, n: nat)
    requires stat.None? || stat.value.gamesPlayed == 0
      || forall j :: 0 <= j < |stat.value.battingPositions| ==> stat.value.battingPositions[j].0 < n
    ensures Adjusted(StandingOf(stat, n)) < n as real + 3.0
  {
    if stat.Some? && stat.value.gamesPlayed != 0 {
      var t := stat.value.battingPositions;
      var total := CountSum(t);
      var avg := if total > 0 then WeightSum(t) as real / total as real else DefaultAverage(n);
      var ps := Occurrences(t);
      var v := if |ps| > 0 then SquaredDeviations(ps, avg) / |ps| as real else NoSpread;
      assert StandingOf(stat, n) == Standing(avg, v);
      OccurrencesLength(t);
      if total > 0 {
        WeightBelow(t, n - 1);
        DivAtMost(WeightSum(t) as real, total as real, (n - 1) as real);
      } else {
        assert v == NoSpread;
      }
    }
  }

  /**
   * The player who batted last (slot n of an n-player roster) in every
   * recorded game leads off the next game, provided every other player has
   * no games or only slots before n: the last batter's adjusted average
   * n + 3 beats everyone else's.
   */
  lemma LastBatterLeads(players: seq<Player>, stats: map<string, HistStat>, p: nat, c: nat)
    requires p < |players| && c > 0
    requires var s := Lookup(stats, players[p].name);
      s.Some? && s.value.gamesPlayed > 0 && s.value.battingPositions == [(|players|, c)]
    requires forall q :: 0 <= q < |players| && q != p ==>
      var s := Lookup(stats, players[q].name);
      || s.None? || s.value.gamesPlayed == 0
      || forall j :: 0 <= j < |s.value.battingPositions| ==> s.value.battingPositions[j].0 < |players|
    ensures Rotated(players, stats)[0] == players[p]
  {
    var n := |players|;
    var order, st := RotationOrder(players, stats), Standings(players, stats);
    RotationOrdered(players, stats);
    SingleSlotStanding(Lookup(stats, players[p].name).value, n, c, n);
    assert Adjusted(st[p]) == n as real + 3.0;
    assert p in multiset(Range(n)) by {
      assert Range(n)[p] == p;
    }
    assert p in multiset(order);
    var k :| 0 <= k < |order| && order[k] == p;
    if order[0] != p {
      var q := order[0];
      AdjustedBelowLast(Lookup(stats, players[q].name), n);
      assert false;
    }
  }

  lemma {:induction false} DecreasingAtLeast(order: seq<nat>, a: nat)
    requires a < |order|
    requires forall x, y :: 0 <= x < y < |order| ==> order[x] > order[y]
    ensures order[a] >= |order| - 1 - a
    decreases |order| - a
  {
    if a + 1 < |order| {
      DecreasingAtLeast(order, a + 1);
    }
  }

  lemma {:induction false} DecreasingAtMost(order: seq<nat>, a: nat)
    requires a < |order|
    requires forall k :: 0 <= k < |order| ==> order[k] < |order|
    requires forall x, y :: 0 <= x < y < |order| ==> order[x] > order[y]
    ensures order[a] <= |order| - 1 - a
  {
    if a > 0 {
      DecreasingAtMost(order, a - 1);
    }
  }

  /** Every player has always batted in the slot they hold on the roster: player i in slot i + 1. */
  predicate InRosterSlots(players: seq<Player>, stats: map<string, HistStat>)
  {
    forall i :: 0 <= i < |players| ==>
      var s := Lookup(stats, players[i].name);
      && s.Some? && s.value.gamesPlayed > 0 && |s.value.battingPositions| == 1
      && s.value.battingPositions[0].0 == i + 1 && s.value.battingPositions[0].1 > 0
  }

  lemma RosterSlotsDecreasing(players: seq<Player>, stats: map<string, HistStat>)
    requires InRosterSlots(players, stats)
    ensures var order := RotationOrder(players, stats);
      forall a, b :: 0 <= a < b < |order| ==> order[a] > order[b]
  {
    var n := |players|;
    var order, st := RotationOrder(players, stats), Standings(players, stats);
    forall i | 0 <= i < n
      ensures Adjusted(st[i]) == (i + 1) as real + 3.0 && st[i].variance == 0.0
    {
      var s := Lookup(stats, players[i].name).value;
      assert s.battingPositions == [(i + 1, s.battingPositions[0].1)];
      SingleSlotStanding(s, i + 1, s.battingPositions[0].1, n);
    }
    RotationOrdered(players, stats);
  }

  /**
   * When every player has always batted in the slot they hold on the roster
   * (as after one game with this roster), the rotation reverses the order:
   * the last batter leads off and the leadoff batter bats last.
   */
  lemma SameSlotsReverse(players: seq<Player>, stats: map<string, HistStat>)
    requires InRosterSlots(players, stats)
    ensures |Rotated(players, stats)| == |players|
    ensures forall a :: 0 <= a < |players| ==> Rotated(players, stats)[a] == players[|players| - 1 - a]
  {
    var n := |players|;
    var order := RotationOrder(players, stats);
    RotationIsPermutation(players, stats);
    RosterSlotsDecreasing(players, stats);
    assert |order| == |Rotated(players, stats)| == n;
    forall a | 0 <= a < n
      ensures Rotated(players, stats)[a] == players[n - 1 - a]
    {
      DecreasingAtLeast(order, a);
      DecreasingAtMost(order, a);
      assert Rotated(players, stats)[a] == players[order[a]];
    }
  }

  /**
   * When no player has usable history every standing is the same, so the
   * rotation keeps the roster order.
   */
  lemma {:induction false} NoHistoryKeepsOrder(players: seq<Player>, stats: map<string, HistStat>)
    requires forall i :: 0 <= i < |players| ==>
      var s := Lookup(stats, players[i].name); s.None? || s.value.gamesPlayed == 0
    ensures Rotated(players, stats) == players
  {
    var st := Standings(players, stats);
    var sc := SortKeys(st);
    var n := |players|;
    var id := Range(n);
    assert InRange(sc, id);
    forall a, b | 0 <= a < b < |id|
      ensures !Before(sc, id[b], id[a])
    {
      assert st[a] == st[b];
    }
    var order := RotationOrder(players, stats);
    assert InRange(sc, order);
    SortedUnique(sc, order, id);
    assert Arrange(players, id) == players;
  }

  /**
   * A player without a record, or whose record has no games, stands in the
   * middle of an n-player order with spread 999, and so gets no boost.
   */
  lemma NoHistoryStanding(stat: Option<HistStat>, n: nat)
    requires stat.None? || stat.value.gamesPlayed == 0
    ensures StandingOf(stat, n) == Standing((n + 1) as real / 2.0, 999.0)
    ensures Adjusted(StandingOf(stat, n)) == (n + 1) as real / 2.0
  {
  }

  /** The occurrence list has one element per recorded game. */
  lemma {:induction false} OccurrencesLength(t: Tally<int>)
    ensures |Occurrences(t)| == CountSum(t)
  {
    if t != [] {
      OccurrencesLength(t[..|t| - 1]);
    }
  }

  lemma {:induction false} ConstantDeviations(ps: seq<int>, v: int)
    requires forall i :: 0 <= i < |ps| ==> ps[i] == v
    ensures SquaredDeviations(ps, v as real) == 0.0
  {
    if ps != [] {
      ConstantDeviations(ps[..|ps| - 1], v);
    }
  }

  /** A one-entry tally: its weighted sum, its count and its occurrence list. */
  lemma SingleEntrySums(v: int, c: nat)
    ensures WeightSum([(v, c)]) == v * c && CountSum([(v, c)]) == c
    ensures Occurrences([(v, c)]) == seq(c, _ => v)
  {
    var t := [(v, c)];
    assert t[..0] == [];
  }

  lemma DivExact(v: int, c: int)
    requires c > 0
    ensures (v * c) as real / c as real == v as real
  {
    assert (v * c) as real == v as real * c as real;
  }

  /**
   * A player who always batted in the same slot v has average v and spread
   * 0, and therefore the largest boost.
   */
  lemma SingleSlotStanding(stat: HistStat, v: int, c: nat, n: nat)
    requires stat.gamesPlayed > 0 && stat.battingPositions == [(v, c)] && c > 0
    ensures StandingOf(Some(stat), n) == Standing(v as real, 0.0)
    ensures Adjusted(StandingOf(Some(stat), n)) == v as real + 3.0
  {
    SingleEntrySums(v, c);
    DivExact(v, c);
    var ps := seq(c, _ => v);
    ConstantDeviations(ps, v);
    assert SquaredDeviations(ps, v as real) / |ps| as real == 0.0;
  }

  lemma {:induction false} DeviationsNonNegative(ps: seq<int>, mean: real)
    ensures SquaredDeviations(ps, mean) >= 0.0
  {
    if ps != [] {
      DeviationsNonNegative(ps[..|ps| - 1], mean);
      var d := ps[|ps| - 1] as real - mean;
      assert d * d >= 0.0;
    }
  }

  /** The spread is never negative. */
  lemma VarianceNonNegative(stat: Option<HistStat>, n: nat)
    ensures StandingOf(stat, n).variance >= 0.0
  {
    if stat.Some? && stat.value.gamesPlayed != 0 {
      var t := stat.value.battingPositions;
      var total := CountSum(t);
      var avg := if total > 0 then WeightSum(t) as real / total as real else DefaultAverage(n);
      DeviationsNonNegative(Occurrences(t), avg);
      var ps := Occurrences(t);
      if |ps| > 0 {
        assert SquaredDeviations(ps, avg) / |ps| as real >= 0.0;
      }
    }
  }
}
