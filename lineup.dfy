/**
 * Lineup generation in src/utils/lineupGenerator.js: per-inning greedy
 * fielding over an array of per-player game records that the innings update
 * in place, and the whole-game driver.
 *
 * Inning maps refer to players by their index in the record array, which is
 * also their batting position minus one.
 */
module Lineup {
  import opened Wrappers
  import opened IndexSort
  import opened Greedy
  import opened Positions
  import opened Records
  import opened History
  import opened Rotation
  import opened Rounds

  /** A player's record for the game being generated. */
  datatype GameStat = GameStat(
    player: Player,
    battingOrder: int,
    infieldInnings: int,
    outfieldInnings: int,
    benchInnings: int,
    historicalInfield: int,
    historicalOutfield: int,
    historicalBench: int)

  /** The totals an inning compares a player by: this game's innings plus the historical ones. */
  function FieldTally(s: GameStat): Tally
  {
    Tally(s.infieldInnings + s.historicalInfield, s.outfieldInnings + s.historicalOutfield)
  }

  function TalliesOf(ss: seq<GameStat>): (t: seq<Tally>)
    ensures |t| == |ss|
  {
    seq(|ss|, k requires 0 <= k < |ss| => FieldTally(ss[k]))
  }

  function TypesOf(ps: seq<Position>): (types: seq<PositionType>)
    ensures |types| == |ps|
  {
    seq(|ps|, j requires 0 <= j < |ps| => GetPositionType(ps[j]))
  }

  /** The value under one key of an inning map: a fielder, or the bench list. */
  datatype Slot = Fielder(player: nat) | BenchList(players: seq<nat>)

  type InningMap = map<string, Slot>

  /** A player's record after one inning in the given role; only this game's counters move. */
  function Advance(s: GameStat, r: Role): GameStat
  {
    match r
    case Played(Infield) => s.(infieldInnings := s.infieldInnings + 1)
    case Played(Outfield) => s.(outfieldInnings := s.outfieldInnings + 1)
    case Played(Bench) => s
    case Sat => s.(benchInnings := s.benchInnings + 1)
    case Idle => s
  }

  /** The field part of an inning map: each filled position's name mapped to its player. */
  function FieldPart(ps: seq<Position>, picks: seq<Option<nat>>): InningMap
    requires |ps| == |picks|
  {
    if ps == [] then map[]
    else
      var m := FieldPart(ps[..|ps| - 1], picks[..|picks| - 1]);
      match picks[|picks| - 1]
      case Some(b) => m[ps[|ps| - 1].name := Fielder(b)]
      case None => m
  }

  /** The inning map: the field part, plus the bench list under "Bench" when it is not empty. */
  function InningOf(ps: seq<Position>, o: Outcome): InningMap
    requires |o.picks| == |ps|
  {
    var m := FieldPart(ps, o.picks);
    if |o.bench| > 0 then m[BenchName := BenchList(o.bench)] else m
  }

  /** The records after one inning, each advanced by the player's role. */
  function Advanced(ss: seq<GameStat>, types: seq<PositionType>, o: Outcome): (r: seq<GameStat>)
    requires |o.picks| == |types|
    ensures |r| == |ss|
  {
    seq(|ss|, k requires 0 <= k < |ss| => Advance(ss[k], RoleOf(types, o, k)))
  }

  /** One inning: the greedy assignment over the totals at the inning's start. */
  function Step(ss: seq<GameStat>, ps: seq<Position>): (seq<GameStat>, InningMap)
  {
    var types := TypesOf(ps);
    var o := Assign(TalliesOf(ss), types);
    (Advanced(ss, types, o), InningOf(ps, o))
  }

  /** A record after the first positions of an inning: advanced if the player already took one of them. */
  function Placed(s: GameStat, types: seq<PositionType>, picks: seq<Option<nat>>, k: nat): GameStat
    requires |types| == |picks|
  {
    var i := IndexOf(picks, k);
    if i < |picks| then Advance(s, Played(types[i])) else s
  }

  /** The source's scan for one position, reading the live records. */
  method FindBest(stats: array<GameStat>, order: seq<nat>, taken: seq<nat>, ty: PositionType)
    returns (best: Option<nat>)
    requires AllBelow(order, stats.Length)
    ensures best == Scan(TalliesOf(stats[..]), order, taken, ty)
  {
    ghost var t := TalliesOf(stats[..]);
    best := None;
    var i := 0;
    while i < |order|
      invariant 0 <= i <= |order|
      invariant best == ScanLoop(t, order[..i], taken, ty)
    {
      assert order[..i + 1][..i] == order[..i];
      PrefixBelow(order, |t|, i + 1);
      ghost var prev := best;
      var p := order[i];
      if p in taken {
      } else if best.None? {
        best := Some(i);
      } else {
        var q := order[best.value];
        if ty == Infield {
          if stats[p].infieldInnings + stats[p].historicalInfield < stats[q].infieldInnings + stats[q].historicalInfield {
            best := Some(i);
          }
        } else if ty == Outfield {
          if stats[p].outfieldInnings + stats[p].historicalOutfield < stats[q].outfieldInnings + stats[q].historicalOutfield {
            best := Some(i);
          }
        }
      }
      assert best == ScanStep(t, prev, order[..i + 1], taken, ty);
      i := i + 1;
    }
    assert order[..i] == order;
  }

  function PlacedAll(s0: seq<GameStat>, types: seq<PositionType>, picks: seq<Option<nat>>): (r: seq<GameStat>)
    requires |types| == |picks|
    ensures |r| == |s0|
  {
    seq(|s0|, k requires 0 <= k < |s0| => Placed(s0[k], types, picks, k))
  }

  /** Taking one more position changes only the record of the player who takes it. */
  lemma PlacedStep(s0: seq<GameStat>, types: seq<PositionType>, picks: seq<Option<nat>>, ty: PositionType, pick: Option<nat>)
    requires |types| == |picks|
    requires pick.Some? ==> pick.value < |s0| && pick.value !in Taken(picks)
    ensures pick.Some? ==> PlacedAll(s0, types, picks)[pick.value] == s0[pick.value]
    ensures PlacedAll(s0, types + [ty], picks + [pick]) ==
      if pick.Some? then PlacedAll(s0, types, picks)[pick.value := Advance(s0[pick.value], Played(ty))]
      else PlacedAll(s0, types, picks)
  {
    var before := PlacedAll(s0, types, picks);
    var after := PlacedAll(s0, types + [ty], picks + [pick]);
    forall k | 0 <= k < |s0|
      ensures after[k] == if pick == Some(k) then Advance(s0[k], Played(ty)) else before[k]
    {
      IndexOfAppend(picks, pick, k);
      var i := IndexOf(picks, k);
      if i < |picks| {
        assert (types + [ty])[i] == types[i];
      }
    }
  }

  /** Records of players not yet taken still hold the inning's starting totals. */
  lemma PlacedFree(s0: seq<GameStat>, types: seq<PositionType>, picks: seq<Option<nat>>)
    requires |types| == |picks|
    ensures forall k :: 0 <= k < |s0| && k !in Taken(picks) ==>
      TalliesOf(PlacedAll(s0, types, picks))[k] == TalliesOf(s0)[k]
  {
    forall k | 0 <= k < |s0| && k !in Taken(picks)
      ensures TalliesOf(PlacedAll(s0, types, picks))[k] == TalliesOf(s0)[k]
    {
      assert IndexOf(picks, k) == |picks|;
    }
  }

  lemma FieldPartStep(ps: seq<Position>, picks: seq<Option<nat>>, j: nat, pick: Option<nat>)
    requires j < |ps| && |picks| == j
    ensures FieldPart(ps[..j + 1], picks + [pick]) ==
      match pick
      case Some(b) => FieldPart(ps[..j], picks)[ps[j].name := Fielder(b)]
      case None => FieldPart(ps[..j], picks)
  {
    assert ps[..j + 1][..j] == ps[..j];
    assert (picks + [pick])[..j] == picks;
  }

  /** The counter bump of the position pass: infield or outfield by the position's type, nothing for the bench type. */
  method BumpFielder(stats: array<GameStat>, b: nat, ty: PositionType)
    requires b < stats.Length
    modifies stats
    ensures stats[..] == old(stats[..])[b := Advance(old(stats[b]), Played(ty))]
  {
    if ty == Infield {
      stats[b] := stats[b].(infieldInnings := stats[b].infieldInnings + 1);
    } else if ty == Outfield {
      stats[b] := stats[b].(outfieldInnings := stats[b].outfieldInnings + 1);
    }
  }

  /** The scan over the live records chooses as the scan over the inning's starting totals would. */
  lemma ScanFromStart(s0: seq<GameStat>, types: seq<PositionType>, picks: seq<Option<nat>>, order: seq<nat>, ty: PositionType)
    requires |types| == |picks| && AllBelow(order, |s0|)
    ensures Scan(TalliesOf(PlacedAll(s0, types, picks)), order, Taken(picks), ty) == Scan(TalliesOf(s0), order, Taken(picks), ty)
  {
    PlacedFree(s0, types, picks);
    ScanAgrees(TalliesOf(PlacedAll(s0, types, picks)), TalliesOf(s0), order, Taken(picks), ty);
  }

  /** One position of the pass extends the greedy fill by the scan's choice over the live records. */
  lemma PositionFill(s0: seq<GameStat>, positions: seq<Position>, order: seq<nat>, j: nat,
                     picks: seq<Option<nat>>, best: Option<nat>)
    requires AllBelow(order, |s0|) && j < |positions|
    requires picks == Fill(TalliesOf(s0), order, TypesOf(positions)[..j])
    requires best == Scan(TalliesOf(PlacedAll(s0, TypesOf(positions)[..j], picks)), order, Taken(picks), GetPositionType(positions[j]))
    ensures best.Some? ==> best.value < |order|
    ensures picks + [Chosen(order, best)] == Fill(TalliesOf(s0), order, TypesOf(positions)[..j + 1])
  {
    var types := TypesOf(positions);
    ScanFromStart(s0, types[..j], picks, order, types[j]);
    FillStep(TalliesOf(s0), order, types, j, Chosen(order, best));
  }

  /** One position of the pass bumps only the chosen player's record. */
  lemma PositionPlaced(s0: seq<GameStat>, types: seq<PositionType>, order: seq<nat>, j: nat,
                       picks: seq<Option<nat>>, live: seq<GameStat>, best: Option<nat>)
    requires AllBelow(order, |s0|) && j < |types| && |picks| == j
    requires live == PlacedAll(s0, types[..j], picks)
    requires best.Some? ==> best.value < |order| && order[best.value] !in Taken(picks)
    ensures best.Some? ==> order[best.value] < |live|
    ensures PlacedAll(s0, types[..j + 1], picks + [Chosen(order, best)]) ==
      (if best.Some? then live[order[best.value] := Advance(live[order[best.value]], Played(types[j]))]
       else live)
  {
    assert types[..j + 1] == types[..j] + [types[j]];
    PlacedStep(s0, types[..j], picks, types[j], Chosen(order, best));
  }

  /** One position of the pass: scan, record the choice in the map, bump the chosen player's counter. */
  method PlacePosition(stats: array<GameStat>, positions: seq<Position>, order: seq<nat>, j: nat,
                       ghost s0: seq<GameStat>, ghost picks: seq<Option<nat>>, taken: seq<nat>, inning: InningMap)
    returns (taken': seq<nat>, inning': InningMap, ghost picks': seq<Option<nat>>)
    requires |s0| == stats.Length && AllBelow(order, |s0|) && j < |positions|
    requires picks == Fill(TalliesOf(s0), order, TypesOf(positions)[..j])
    requires taken == Taken(picks) && inning == FieldPart(positions[..j], picks)
    requires stats[..] == PlacedAll(s0, TypesOf(positions)[..j], picks)
    modifies stats
    ensures picks' == Fill(TalliesOf(s0), order, TypesOf(positions)[..j + 1])
    ensures taken' == Taken(picks') && inning' == FieldPart(positions[..j + 1], picks')
    ensures stats[..] == PlacedAll(s0, TypesOf(positions)[..j + 1], picks')
  {
    var ty := GetPositionType(positions[j]);
    var best := FindBest(stats, order, taken, ty);
    PositionFill(s0, positions, order, j, picks, best);
    PositionPlaced(s0, TypesOf(positions), order, j, picks, stats[..], best);
    FieldPartStep(positions, picks, j, Chosen(order, best));
    TakenStep(picks, Chosen(order, best));
    taken', inning' := taken, inning;
    if best.Some? {
      var b := order[best.value];
      inning' := inning[positions[j].name := Fielder(b)];
      taken' := taken + [b];
      BumpFielder(stats, b, ty);
    }
    picks' := picks + [Chosen(order, best)];
  }

  /** The position pass of an inning: each position takes the scan's choice, whose counter is bumped. */
  method FillPositions(stats: array<GameStat>, positions: seq<Position>, order: seq<nat>)
    returns (inning: InningMap, taken: seq<nat>, ghost picks: seq<Option<nat>>)
    requires AllBelow(order, stats.Length)
    modifies stats
    ensures picks == Fill(TalliesOf(old(stats[..])), order, TypesOf(positions))
    ensures taken == Taken(picks)
    ensures inning == FieldPart(positions, picks)
    ensures stats[..] == PlacedAll(old(stats[..]), TypesOf(positions), picks)
  {
    ghost var s0 := stats[..];
    taken := [];
    picks := [];
    inning := map[];
    var j := 0;
    while j < |positions|
      invariant 0 <= j <= |positions|
      invariant picks == Fill(TalliesOf(s0), order, TypesOf(positions)[..j])
      invariant taken == Taken(picks)
      invariant inning == FieldPart(positions[..j], picks)
      invariant stats[..] == PlacedAll(s0, TypesOf(positions)[..j], picks)
    {
      taken, inning, picks := PlacePosition(stats, positions, order, j, s0, picks, taken, inning);
      j := j + 1;
    }
    assert TypesOf(positions)[..j] == TypesOf(positions) && positions[..j] == positions;
  }

  /** The bench pass of an inning: every player of order not yet taken sits, in order. */
  method BenchRest(stats: array<GameStat>, order: seq<nat>, taken: seq<nat>) returns (bench: seq<nat>)
    requires AllBelow(order, stats.Length) && Distinct(order)
    modifies stats
    ensures bench == Benched(order, taken)
    ensures forall k :: 0 <= k < stats.Length ==>
      stats[k] == if k in bench then Advance(old(stats[k]), Sat) else old(stats[k])
  {
    bench := [];
    var i := 0;
    while i < |order|
      invariant 0 <= i <= |order|
      invariant bench == Benched(order[..i], taken)
      invariant forall k :: 0 <= k < stats.Length ==>
        stats[k] == if k in bench then Advance(old(stats[k]), Sat) else old(stats[k])
    {
      assert order[..i + 1][..i] == order[..i];
      var p := order[i];
      if p !in taken {
        assert p !in order[..i];
        bench := bench + [p];
        stats[p] := stats[p].(benchInnings := stats[p].benchInnings + 1);
      }
      i := i + 1;
    }
    assert order[..i] == order;
  }

  /**
   * One inning, in place: sort, fill the positions one by one by scanning
   * the sorted players and bumping the chosen one's counter, then bench the
   * rest. The records and the map come out as Step describes.
   */
  method GenerateInningPositions(stats: array<GameStat>, positions: seq<Position>) returns (inning: InningMap)
    modifies stats
    ensures (stats[..], inning) == Step(old(stats[..]), positions)
  {
    ghost var s0 := stats[..];
    ghost var types := TypesOf(positions);
    var order := FieldingOrder(TalliesOf(stats[..]));
    PermutationFacts(order, stats.Length);
    var taken;
    ghost var picks;
    inning, taken, picks := FillPositions(stats, positions, order);
    ghost var s1 := stats[..];
    var bench := BenchRest(stats, order, taken);
    if |bench| > 0 {
      inning := inning[BenchName := BenchList(bench)];
    }
    ghost var o := Assign(TalliesOf(s0), types);
    assert o.picks == picks && o.bench == bench;
    StepRecords(s0, s1, stats[..], types, o);
  }

  /** The two passes together advance every record by the player's role. */
  lemma StepRecords(s0: seq<GameStat>, s1: seq<GameStat>, s2: seq<GameStat>, types: seq<PositionType>, o: Outcome)
    requires |o.picks| == |types| && |s1| == |s0| && |s2| == |s0|
    requires s1 == PlacedAll(s0, types, o.picks)
    requires forall k :: 0 <= k < |s2| ==> s2[k] == if k in o.bench then Advance(s1[k], Sat) else s1[k]
    requires forall k :: k in o.bench ==> k !in Taken(o.picks)
    ensures s2 == Advanced(s0, types, o)
  {
    forall k | 0 <= k < |s2|
      ensures s2[k] == Advanced(s0, types, o)[k]
    {
      if k in o.bench {
        assert IndexOf(o.picks, k) == |o.picks|;
      }
    }
  }

  // ---------------------------------------------------------------------
  // Properties of one inning
  // ---------------------------------------------------------------------

  /** The innings a record has been on the field or on the bench this game. */
  function Total(s: GameStat): int
  {
    s.infieldInnings + s.outfieldInnings + s.benchInnings
  }

  /** Exactly one of this game's three counters rose by one and nothing else changed. */
  predicate OneInning(before: GameStat, after: GameStat)
  {
    || after == before.(infieldInnings := before.infieldInnings + 1)
    || after == before.(outfieldInnings := before.outfieldInnings + 1)
    || after == before.(benchInnings := before.benchInnings + 1)
  }

  predicate NoBenchType(ps: seq<Position>)
  {
    forall j :: 0 <= j < |ps| ==> GetPositionType(ps[j]) != Bench
  }

  /** With every player placed or benched and no bench-type position, each record moves by one counter. */
  lemma AdvancedOneInning(ss: seq<GameStat>, types: seq<PositionType>, o: Outcome)
    requires |o.picks| == |types| && Partitions(o, |ss|)
    requires forall j :: 0 <= j < |types| ==> types[j] != Bench
    ensures forall k :: 0 <= k < |ss| ==> OneInning(ss[k], Advanced(ss, types, o)[k])
  {
    forall k | 0 <= k < |ss|
      ensures OneInning(ss[k], Advanced(ss, types, o)[k])
    {
      assert k in Taken(o.picks) + o.bench;
      if IndexOf(o.picks, k) == |o.picks| {
        assert Some(k) !in o.picks;
      }
    }
  }

  /** Over an inning of field positions, every player's record moves by exactly one counter. */
  lemma StepOneInning(ss: seq<GameStat>, ps: seq<Position>)
    requires NoBenchType(ps)
    ensures forall k :: 0 <= k < |ss| ==> OneInning(ss[k], Step(ss, ps).0[k])
  {
    var types := TypesOf(ps);
    AssignPartitions(TalliesOf(ss), types);
    AdvancedOneInning(ss, types, Assign(TalliesOf(ss), types));
  }

  predicate GoodNames(ps: seq<Position>)
  {
    && (forall a, b :: 0 <= a < b < |ps| ==> ps[a].name != ps[b].name)
    && (forall a :: 0 <= a < |ps| ==> ps[a].name != BenchName)
  }

  /** The position keys of a field part, when position names are distinct: key of position j holds its pick. */
  lemma {:induction false} FieldPartFacts(ps: seq<Position>, picks: seq<Option<nat>>)
    requires |ps| == |picks|
    requires forall a, b :: 0 <= a < b < |ps| ==> ps[a].name != ps[b].name
    ensures var m := FieldPart(ps, picks);
      && (forall j :: 0 <= j < |ps| ==> (ps[j].name in m <==> picks[j].Some?))
      && (forall j :: 0 <= j < |ps| && picks[j].Some? ==> m[ps[j].name] == Fielder(picks[j].value))
      && (forall key :: key in m ==> exists j :: 0 <= j < |ps| && ps[j].name == key)
  {
    if ps != [] {
      var n := |ps| - 1;
      FieldPartFacts(ps[..n], picks[..n]);
    }
  }

  /** The keys of an inning map: filled positions under their names, and "Bench" exactly when someone sits. */
  lemma InningOfFacts(ps: seq<Position>, o: Outcome)
    requires |o.picks| == |ps| && GoodNames(ps)
    ensures var m := InningOf(ps, o);
      && (forall j :: 0 <= j < |ps| ==> (ps[j].name in m <==> o.picks[j].Some?))
      && (forall j :: 0 <= j < |ps| && o.picks[j].Some? ==> m[ps[j].name] == Fielder(o.picks[j].value))
      && (forall key :: key in m ==> key == BenchName || exists j :: 0 <= j < |ps| && ps[j].name == key)
      && (BenchName in m <==> |o.bench| > 0)
      && (BenchName in m ==> m[BenchName] == BenchList(o.bench))
  {
    FieldPartFacts(ps, o.picks);
    assert BenchName !in FieldPart(ps, o.picks);
  }

  /** Every key is a position name or "Bench"; position keys hold a fielder, "Bench" a non-empty list. */
  predicate WellKeyed(m: InningMap, ps: seq<Position>, n: nat)
  {
    && (forall key :: key in m ==> key == BenchName || exists j :: 0 <= j < |ps| && ps[j].name == key)
    && (forall j :: 0 <= j < |ps| && ps[j].name in m ==> m[ps[j].name].Fielder? && m[ps[j].name].player < n)
    && (BenchName in m ==>
          && m[BenchName].BenchList? && |m[BenchName].players| > 0
          && forall i :: 0 <= i < |m[BenchName].players| ==> m[BenchName].players[i] < n)
  }

  /** No player is listed twice: not at two positions, not twice on the bench, not both fielding and sitting. */
  predicate AtMostOnce(m: InningMap, ps: seq<Position>)
  {
    && (forall a, b :: 0 <= a < b < |ps| && ps[a].name in m && ps[b].name in m ==> m[ps[a].name] != m[ps[b].name])
    && (BenchName in m && m[BenchName].BenchList? ==>
          && Distinct(m[BenchName].players)
          && forall j :: 0 <= j < |ps| && ps[j].name in m && m[ps[j].name].Fielder? ==>
               m[ps[j].name].player !in m[BenchName].players)
  }

  /** Player k fields one of the positions or sits on the bench. */
  predicate Appears(m: InningMap, ps: seq<Position>, k: nat)
  {
    || (BenchName in m && m[BenchName].BenchList? && k in m[BenchName].players)
    || exists j :: 0 <= j < |ps| && ps[j].name in m && m[ps[j].name] == Fielder(k)
  }

  /** Every player 0..n-1 fields a position or sits. */
  predicate AtLeastOnce(m: InningMap, ps: seq<Position>, n: nat)
  {
    forall k: nat :: k < n ==> Appears(m, ps, k)
  }

  lemma InningWellKeyed(ps: seq<Position>, o: Outcome, n: nat)
    requires |o.picks| == |ps| && GoodNames(ps) && Partitions(o, n)
    ensures WellKeyed(InningOf(ps, o), ps, n)
  {
    InningOfFacts(ps, o);
    var taken := Taken(o.picks);
    forall j | 0 <= j < |ps| && o.picks[j].Some?
      ensures o.picks[j].value < n
    {
      assert o.picks[j].value in taken + o.bench;
    }
    forall i | 0 <= i < |o.bench|
      ensures o.bench[i] < n
    {
      assert o.bench[i] in taken + o.bench;
    }
  }

  lemma InningAtMostOnce(ps: seq<Position>, o: Outcome, n: nat)
    requires |o.picks| == |ps| && GoodNames(ps) && Partitions(o, n)
    ensures AtMostOnce(InningOf(ps, o), ps)
  {
    InningOfFacts(ps, o);
    var taken := Taken(o.picks);
    DistinctSplit(taken, o.bench);
    forall a, b | 0 <= a < b < |ps| && o.picks[a].Some? && o.picks[b].Some?
      ensures o.picks[a] != o.picks[b]
    {
      if o.picks[a] == o.picks[b] {
        TakenAt(o.picks, a, b);
      }
    }
    forall j | 0 <= j < |ps| && o.picks[j].Some?
      ensures o.picks[j].value in taken
    {
    }
  }

  lemma InningAtLeastOnce(ps: seq<Position>, o: Outcome, n: nat)
    requires |o.picks| == |ps| && GoodNames(ps) && Partitions(o, n)
    ensures AtLeastOnce(InningOf(ps, o), ps, n)
  {
    InningOfFacts(ps, o);
    var m := InningOf(ps, o);
    forall k: nat | k < n
      ensures Appears(m, ps, k)
    {
      assert k in Taken(o.picks) + o.bench;
      if k in Taken(o.picks) {
        var j := IndexOf(o.picks, k);
        assert ps[j].name in m && m[ps[j].name] == Fielder(k);
      } else {
        assert k in o.bench && |o.bench| > 0;
        assert m[BenchName] == BenchList(o.bench);
      }
    }
  }

  /**
   * One inning's map puts every player exactly once: under one position's
   * name or in the bench list, which is present only when non-empty; there
   * are no other keys.
   */
  lemma InningPlacesEveryoneOnce(ss: seq<GameStat>, ps: seq<Position>)
    requires GoodNames(ps)
    ensures var m := Step(ss, ps).1;
      WellKeyed(m, ps, |ss|) && AtMostOnce(m, ps) && AtLeastOnce(m, ps, |ss|)
  {
    var types := TypesOf(ps);
    var o := Assign(TalliesOf(ss), types);
    AssignPartitions(TalliesOf(ss), types);
    InningWellKeyed(ps, o, |ss|);
    InningAtMostOnce(ps, o, |ss|);
    InningAtLeastOnce(ps, o, |ss|);
  }

  /** The "Bench" key is present exactly when there are more players than positions, and lists the surplus. */
  lemma InningBench(ss: seq<GameStat>, ps: seq<Position>)
    requires GoodNames(ps)
    ensures var m := Step(ss, ps).1;
      && (BenchName in m <==> |ss| > |ps|)
      && (BenchName in m ==> m[BenchName].BenchList? && |m[BenchName].players| == |ss| - |ps|)
  {
    var types := TypesOf(ps);
    var o := Assign(TalliesOf(ss), types);
    BenchSize(TalliesOf(ss), types);
    InningOfFacts(ps, o);
  }

  // ---------------------------------------------------------------------
  // The whole game
  // ---------------------------------------------------------------------

  /** The result of lineup generation: the records in batting order, one map per inning, and the positions. */
  datatype GeneratedLineup = GeneratedLineup(battingOrder: seq<GameStat>, innings: seq<InningMap>, positions: seq<Position>)

  /** The outfielder count: as given, or with "all" enough to field the whole roster. */
  function ActualOutfielders(setting: OutfieldSetting, numPlayers: nat, hasCatcher: bool): int
  {
    match setting
    case Count(n) => n
    case All => Max0(numPlayers - (if hasCatcher then 6 else 5))
  }

  /** The record a player starts the game with: batting slot i+1, no innings yet, the historical totals. */
  function InitialStat(p: Player, i: nat, hs: map<string, HistStat>): GameStat
  {
    GameStat(p, i + 1, 0, 0, 0,
      if p.name in hs then hs[p.name].totalInfield else 0,
      if p.name in hs then hs[p.name].totalOutfield else 0,
      if p.name in hs then hs[p.name].totalBench else 0)
  }

  function InitialStats(rotated: seq<Player>, hs: map<string, HistStat>): (ss: seq<GameStat>)
    ensures |ss| == |rotated|
  {
    seq(|rotated|, i requires 0 <= i < |rotated| => InitialStat(rotated[i], i, hs))
  }

  /** n innings from the given records: the records afterwards and the inning maps in order. */
  function Play(ss: seq<GameStat>, ps: seq<Position>, n: nat): (seq<GameStat>, seq<InningMap>)
  {
    Run(x => Step(x, ps), ss, n)
  }

  function LineupOf(players: seq<Player>, numInnings: int, setting: OutfieldSetting, hasCatcher: bool,
                    games: seq<GameRecord>): GeneratedLineup
  {
    var hs := HistoricalStatsOf(players, games);
    var rotated := Rotated(players, hs);
    var ps := PositionsFor(ActualOutfielders(setting, |players|, hasCatcher), hasCatcher);
    var r := Play(InitialStats(rotated, hs), ps, Max0(numInnings));
    GeneratedLineup(r.0, r.1, ps)
  }

  /** The records for this game, in the rotated order. */
  method StartRecords(rotated: seq<Player>, hs: map<string, HistStat>) returns (stats: array<GameStat>)
    ensures fresh(stats) && stats[..] == InitialStats(rotated, hs)
  {
    stats := new GameStat[|rotated|](i requires 0 <= i < |rotated| => InitialStat(rotated[i], i, hs));
  }

  /** The body of the inning loop: one more inning over the records, its map appended. */
  method PlayOne(stats: array<GameStat>, positions: seq<Position>, innings: seq<InningMap>,
                 ghost s0: seq<GameStat>, ghost played: nat) returns (innings': seq<InningMap>)
    requires (stats[..], innings) == Play(s0, positions, played)
    modifies stats
    ensures (stats[..], innings') == Play(s0, positions, played + 1)
  {
    var m := GenerateInningPositions(stats, positions);
    innings' := innings + [m];
  }

  /** The inning loop: numInnings innings over the same records, collecting the maps. */
  method PlayInnings(stats: array<GameStat>, positions: seq<Position>, numInnings: int) returns (innings: seq<InningMap>)
    modifies stats
    ensures (stats[..], innings) == Play(old(stats[..]), positions, Max0(numInnings))
  {
    ghost var s0 := stats[..];
    innings := [];
    var inning := 0;
    while inning < numInnings
      invariant 0 <= inning <= Max0(numInnings)
      invariant (stats[..], innings) == Play(s0, positions, inning)
    {
      innings := PlayOne(stats, positions, innings, s0, inning);
      inning := inning + 1;
    }
    InningLoopEnds(inning, numInnings);
  }

  /**
   * Historical stats, rotation, fresh records in the rotated order, the
   * position list, then the innings one after another over the same records.
   */
  method GenerateLineup(players: seq<Player>, numInnings: int, numOutfielders: OutfieldSetting, hasCatcher: bool,
                        games: seq<GameRecord>) returns (lineup: GeneratedLineup)
    ensures lineup == LineupOf(players, numInnings, numOutfielders, hasCatcher, games)
  {
    var hs := CalculateHistoricalStats(players, games);
    var rotated := RotateBattingOrder(players, hs);
    var stats := StartRecords(rotated, hs);
    var actual: int;
    match numOutfielders {
      case Count(n) => actual := n;
      case All =>
        var infieldPositions := if hasCatcher then 6 else 5;
        actual := Max0(|players| - infieldPositions);
    }
    var positions := GetPositionsForGame(actual, hasCatcher);
    var innings := PlayInnings(stats, positions, numInnings);
    lineup := GeneratedLineup(stats[..], innings, positions);
  }

  // ---------------------------------------------------------------------
  // Properties of the whole game
  // ---------------------------------------------------------------------

  /** The parts of a record the innings never touch: the player, the batting slot and the historical totals. */
  predicate Kept(before: GameStat, after: GameStat)
  {
    && after.player == before.player && after.battingOrder == before.battingOrder
    && after.historicalInfield == before.historicalInfield
    && after.historicalOutfield == before.historicalOutfield
    && after.historicalBench == before.historicalBench
  }

  /** After n innings of field positions every record has moved by n innings and kept everything else. */
  lemma {:induction false} PlayFacts(ss: seq<GameStat>, ps: seq<Position>, n: nat)
    requires NoBenchType(ps)
    ensures var r := Play(ss, ps, n).0;
      && |r| == |ss|
      && forall k :: 0 <= k < |ss| ==> Kept(ss[k], r[k]) && Total(r[k]) == Total(ss[k]) + n
  {
    if n > 0 {
      PlayFacts(ss, ps, n - 1);
      var prev := Play(ss, ps, n - 1).0;
      StepOneInning(prev, ps);
      PlayLength(ss, ps, n);
      ChainInning(ss, prev, Play(ss, ps, n).0, n);
    }
  }

  /** Records n-1 innings past ss, moved on by one inning each, are n innings past ss. */
  lemma ChainInning(ss: seq<GameStat>, prev: seq<GameStat>, next: seq<GameStat>, n: nat)
    requires n > 0 && |prev| == |ss| && |next| == |ss|
    requires forall k :: 0 <= k < |ss| ==> Kept(ss[k], prev[k]) && Total(prev[k]) == Total(ss[k]) + (n - 1)
    requires forall k :: 0 <= k < |prev| ==> OneInning(prev[k], next[k])
    ensures forall k :: 0 <= k < |ss| ==> Kept(ss[k], next[k]) && Total(next[k]) == Total(ss[k]) + n
  {
  }

  /** Inning i of a run is one Step from the records as they stood after i innings. */
  lemma PlayInning(ss: seq<GameStat>, ps: seq<Position>, n: nat, i: nat)
    requires i < n
    ensures Play(ss, ps, n).1[i] == Step(Play(ss, ps, i).0, ps).1
  {
    var step := x => Step(x, ps);
    RunPrefix(step, ss, n, i + 1);
    assert Run(step, ss, n).1[i] == Run(step, ss, n).1[..i + 1][i];
  }

  /** A game's positions have distinct names other than "Bench" and none is of bench type. */
  lemma GamePositions(numOutfielders: int, hasCatcher: bool)
    ensures GoodNames(PositionsFor(numOutfielders, hasCatcher))
    ensures NoBenchType(PositionsFor(numOutfielders, hasCatcher))
  {
    PositionNamesDistinct(numOutfielders, hasCatcher);
  }

  function PlayersOf(ss: seq<GameStat>): (r: seq<Player>)
    ensures |r| == |ss|
  {
    seq(|ss|, i requires 0 <= i < |ss| => ss[i].player)
  }

  /**
   * The generated lineup: the roster in the rotated order (so the same
   * players, each once), batting slots 1..n in that order, one map per
   * inning, the game's position list, and every player with exactly
   * max(0, numInnings) innings between field and bench.
   */
  lemma LineupShape(players: seq<Player>, numInnings: int, setting: OutfieldSetting, hasCatcher: bool, games: seq<GameRecord>)
    ensures var l := LineupOf(players, numInnings, setting, hasCatcher, games);
      && PlayersOf(l.battingOrder) == Rotated(players, HistoricalStatsOf(players, games))
      && multiset(PlayersOf(l.battingOrder)) == multiset(players)
      && (forall i :: 0 <= i < |l.battingOrder| ==> l.battingOrder[i].battingOrder == i + 1)
      && (forall i :: 0 <= i < |l.battingOrder| ==> Total(l.battingOrder[i]) == Max0(numInnings))
      && |l.innings| == Max0(numInnings)
      && l.positions == PositionsFor(ActualOutfielders(setting, |players|, hasCatcher), hasCatcher)
  {
    var hs := HistoricalStatsOf(players, games);
    var rotated := Rotated(players, hs);
    RotationIsPermutation(players, hs);
    var ps := PositionsFor(ActualOutfielders(setting, |players|, hasCatcher), hasCatcher);
    GamePositions(ActualOutfielders(setting, |players|, hasCatcher), hasCatcher);
    var s0 := InitialStats(rotated, hs);
    PlayFacts(s0, ps, Max0(numInnings));
    var l := LineupOf(players, numInnings, setting, hasCatcher, games);
    assert PlayersOf(l.battingOrder) == rotated;
  }

  /** Each record carries the player's historical totals: the sums over the saved games. */
  lemma LineupHistory(players: seq<Player>, numInnings: int, setting: OutfieldSetting, hasCatcher: bool,
                      games: seq<GameRecord>, i: nat)
    requires i < |players|
    ensures var l := LineupOf(players, numInnings, setting, hasCatcher, games);
      |l.battingOrder| == |players| &&
      var s := l.battingOrder[i];
      && s.historicalInfield == GameSum(games, s.player.name, InfieldInnings)
      && s.historicalOutfield == GameSum(games, s.player.name, OutfieldInnings)
      && s.historicalBench == GameSum(games, s.player.name, BenchInnings)
  {
    var hs := HistoricalStatsOf(players, games);
    var rotated := Rotated(players, hs);
    RotationIsPermutation(players, hs);
    var ps := PositionsFor(ActualOutfielders(setting, |players|, hasCatcher), hasCatcher);
    GamePositions(ActualOutfielders(setting, |players|, hasCatcher), hasCatcher);
    var s0 := InitialStats(rotated, hs);
    PlayFacts(s0, ps, Max0(numInnings));
    var p := rotated[i];
    assert p in multiset(players);
    assert p.name in Names(players);
    HistoricalStatsClosedForm(players, games, p.name, InfieldInnings);
    HistoricalStatsClosedForm(players, games, p.name, OutfieldInnings);
    HistoricalStatsClosedForm(players, games, p.name, BenchInnings);
  }

  lemma {:induction false} PlayLength(ss: seq<GameStat>, ps: seq<Position>, n: nat)
    ensures |Play(ss, ps, n).0| == |ss|
  {
    if n > 0 {
      PlayLength(ss, ps, n - 1);
      assert Play(ss, ps, n).0 == Step(Play(ss, ps, n - 1).0, ps).0;
    }
  }

  /** Every inning of a run places each player exactly once, with "Bench" present exactly when there is a surplus. */
  lemma PlayPlacesEveryoneOnce(ss: seq<GameStat>, ps: seq<Position>, n: nat, i: nat)
    requires GoodNames(ps) && i < n
    ensures var m := Play(ss, ps, n).1[i];
      && WellKeyed(m, ps, |ss|) && AtMostOnce(m, ps) && AtLeastOnce(m, ps, |ss|)
      && (BenchName in m <==> |ss| > |ps|)
  {
    PlayInning(ss, ps, n, i);
    PlayLength(ss, ps, i);
    var before := Play(ss, ps, i).0;
    InningPlacesEveryoneOnce(before, ps);
    InningBench(before, ps);
  }

  /**
   * Every inning of the game places each player exactly once, on one field
   * position or on the bench, and has a "Bench" key exactly when the roster
   * is larger than the position list.
   */
  lemma LineupInnings(players: seq<Player>, numInnings: int, setting: OutfieldSetting, hasCatcher: bool,
                      games: seq<GameRecord>, i: nat)
    requires i < Max0(numInnings)
    ensures var l := LineupOf(players, numInnings, setting, hasCatcher, games);
      var m := l.innings[i];
      && WellKeyed(m, l.positions, |players|) && AtMostOnce(m, l.positions) && AtLeastOnce(m, l.positions, |players|)
      && (BenchName in m <==> |players| > |l.positions|)
  {
    var hs := HistoricalStatsOf(players, games);
    var rotated := Rotated(players, hs);
    RotationIsPermutation(players, hs);
    var ps := PositionsFor(ActualOutfielders(setting, |players|, hasCatcher), hasCatcher);
    GamePositions(ActualOutfielders(setting, |players|, hasCatcher), hasCatcher);
    PlayPlacesEveryoneOnce(InitialStats(rotated, hs), ps, Max0(numInnings), i);
  }

  /** With the "all" setting the outfield grows to fit the roster, so nobody ever sits. */
  lemma AllFieldsEveryone(players: seq<Player>, numInnings: int, hasCatcher: bool, games: seq<GameRecord>, i: nat)
    requires i < Max0(numInnings)
    ensures var l := LineupOf(players, numInnings, All, hasCatcher, games);
      |l.positions| >= |players| && BenchName !in l.innings[i]
  {
    PositionsShape(ActualOutfielders(All, |players|, hasCatcher), hasCatcher);
    LineupInnings(players, numInnings, All, hasCatcher, games, i);
  }

  /** Without saved games every historical total is zero and the batting order is the roster order. */
  lemma FirstGame(players: seq<Player>, numInnings: int, setting: OutfieldSetting, hasCatcher: bool)
    ensures var l := LineupOf(players, numInnings, setting, hasCatcher, []);
      && PlayersOf(l.battingOrder) == players
      && forall i :: 0 <= i < |l.battingOrder| ==>
           l.battingOrder[i].historicalInfield == 0 && l.battingOrder[i].historicalOutfield == 0
           && l.battingOrder[i].historicalBench == 0
  {
    var hs := HistoricalStatsOf(players, []);
    InitStatsFacts(players);
    assert hs == InitStats(players);
    NoHistoryKeepsOrder(players, hs);
    LineupShape(players, numInnings, setting, hasCatcher, []);
    forall i | 0 <= i < |players|
      ensures var l := LineupOf(players, numInnings, setting, hasCatcher, []);
        l.battingOrder[i].historicalInfield == 0 && l.battingOrder[i].historicalOutfield == 0
        && l.battingOrder[i].historicalBench == 0
    {
      LineupHistory(players, numInnings, setting, hasCatcher, [], i);
    }
  }
}
