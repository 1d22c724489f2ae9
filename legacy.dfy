/**
 * The older, stand-alone generator of script.js (class BattingOrderGenerator):
 * the batting order is the roster as typed, and each inning runs the same
 * greedy fielding as the newer generator, over this game's counters only.
 * Inning maps hold player names; the bench list is a list of names.
 */
module Legacy {
  import opened Wrappers
  import opened IndexSort
  import opened Greedy
  import opened Positions
  import opened Rounds

  // ---------------------------------------------------------------------
  // Names
  // ---------------------------------------------------------------------

  /** JavaScript's white space and line terminators, the characters `trim` removes. */
  predicate IsSpace(c: char)
  {
    || c in {'\t', '\n', '\U{000B}', '\U{000C}', '\r', ' ', '\U{00A0}', '\U{1680}', '\U{2028}', '\U{2029}',
             '\U{202F}', '\U{205F}', '\U{3000}', '\U{FEFF}'}
    || '\U{2000}' <= c <= '\U{200A}'
  }

  function TrimStart(s: string): (r: string)
    ensures |r| <= |s| && r == s[|s| - |r|..]
  {
    if s != [] && IsSpace(s[0]) then TrimStart(s[1..]) else s
  }

  function TrimEnd(s: string): (r: string)
    ensures |r| <= |s| && r == s[..|r|]
  {
    if s != [] && IsSpace(s[|s| - 1]) then TrimEnd(s[..|s| - 1]) else s
  }

  /** `String.prototype.trim`: the name without leading and trailing white space. */
  function Trim(s: string): string
  {
    TrimEnd(TrimStart(s))
  }

  /** What TrimStart cuts off is white space, and what it keeps does not start with any. */
  lemma {:induction false} TrimStartSpaces(s: string)
    ensures var r := TrimStart(s);
      && (r == [] || !IsSpace(r[0]))
      && (forall i :: 0 <= i < |s| - |r| ==> IsSpace(s[i]))
  {
    if s != [] && IsSpace(s[0]) {
      TrimStartSpaces(s[1..]);
      var r := TrimStart(s);
      forall i | 0 <= i < |s| - |r|
        ensures IsSpace(s[i])
      {
        if i > 0 {
          assert s[i] == s[1..][i - 1];
        }
      }
    }
  }

  /** What TrimEnd cuts off is white space, and what it keeps does not end with any. */
  lemma {:induction false} TrimEndSpaces(s: string)
    ensures var r := TrimEnd(s);
      && (r == [] || !IsSpace(r[|r| - 1]))
      && (forall i :: |r| <= i < |s| ==> IsSpace(s[i]))
  {
    if s != [] && IsSpace(s[|s| - 1]) {
      TrimEndSpaces(s[..|s| - 1]);
      var r := TrimEnd(s);
      forall i | |r| <= i < |s|
        ensures IsSpace(s[i])
      {
        if i < |s| - 1 {
          assert s[i] == s[..|s| - 1][i];
        }
      }
    }
  }

  /**
   * The trimmed name is the part of the typed one that starts after the
   * leading white space: everything cut off on either side is white space,
   * and it neither starts nor ends with white space.
   */
  lemma TrimFacts(s: string)
    ensures var r, a := Trim(s), |s| - |TrimStart(s)|;
      && a + |r| <= |s| && s[a..a + |r|] == r
      && (forall i :: 0 <= i < a ==> IsSpace(s[i]))
      && (forall i :: a + |r| <= i < |s| ==> IsSpace(s[i]))
      && (r == [] || (!IsSpace(r[0]) && !IsSpace(r[|r| - 1])))
  {
    TrimSlice(s);
    TrimStartSpaces(s);
    TrimTrailing(s);
    TrimEnds(s);
  }

  lemma TrimSlice(s: string)
    ensures var r, a := Trim(s), |s| - |TrimStart(s)|;
      a + |r| <= |s| && s[a..a + |r|] == r
  {
    var u := TrimStart(s);
    var a := |s| - |u|;
    var r := TrimEnd(u);
    assert u == s[a..];
    assert r == u[..|r|];
    SuffixSlice(s, a, |r|);
  }

  lemma TrimTrailing(s: string)
    ensures var r, a := Trim(s), |s| - |TrimStart(s)|;
      forall i :: a + |r| <= i < |s| ==> IsSpace(s[i])
  {
    var u := TrimStart(s);
    TrimEndSpaces(u);
    TrailingSpaces(s, u, |TrimEnd(u)|);
  }

  lemma TrimEnds(s: string)
    ensures var r := Trim(s); r == [] || (!IsSpace(r[0]) && !IsSpace(r[|r| - 1]))
  {
    var u := TrimStart(s);
    var r := TrimEnd(u);
    TrimStartSpaces(s);
    TrimEndSpaces(u);
    if r != [] {
      assert r[0] == u[0];
    }
  }

  lemma SuffixSlice(s: string, a: nat, k: nat)
    requires a + k <= |s|
    ensures s[a..][..k] == s[a..a + k]
  {
  }

  /** White space at the end of a suffix is white space at the end of the whole. */
  lemma TrailingSpaces(s: string, u: string, k: nat)
    requires |u| <= |s| && u == s[|s| - |u|..] && k <= |u|
    requires forall i :: k <= i < |u| ==> IsSpace(u[i])
    ensures forall i :: |s| - |u| + k <= i < |s| ==> IsSpace(s[i])
  {
    forall i | |s| - |u| + k <= i < |s|
      ensures IsSpace(s[i])
    {
      assert s[i] == u[i - (|s| - |u|)];
    }
  }

  /** Trimming twice changes nothing more. */
  lemma TrimIdempotent(s: string)
    ensures Trim(Trim(s)) == Trim(s)
  {
    var r := Trim(s);
    TrimEnds(s);
    assert TrimStart(r) == r;
    assert TrimEnd(r) == r;
  }

  // ---------------------------------------------------------------------
  // Positions
  // ---------------------------------------------------------------------

  /** The infield positions, in the order they are filled: the catcher only in games that have one. */
  function InfieldNames(hasCatcher: bool): seq<string>
  {
    if hasCatcher then [Pitcher.name, Catcher.name, FirstBase.name, SecondBase.name, ThirdBase.name, Shortstop.name]
    else [Pitcher.name, FirstBase.name, SecondBase.name, ThirdBase.name, Shortstop.name]
  }

  const OutfieldNames: seq<string> := [LeftField.name, CenterField.name, RightField.name, RightCenter.name]

  /** How many outfield positions a game gets: the configured number, at most the four there are. */
  function OutfieldCount(numOutfielders: int): nat
  {
    if numOutfielders < 0 then 0 else if numOutfielders > |OutfieldNames| then |OutfieldNames| else numOutfielders
  }

  /** The positions of every inning: the infield, then the first outfield names. */
  function PositionsNeeded(numOutfielders: int, hasCatcher: bool): seq<string>
  {
    InfieldNames(hasCatcher) + OutfieldNames[..OutfieldCount(numOutfielders)]
  }

  /** "Bench", one of the four outfield names, or anything else, which counts as infield. */
  function PositionTypeOf(position: string): (ty: PositionType)
    ensures ty == Bench <==> position == BenchName
    ensures ty == Outfield <==> position in OutfieldNames
  {
    if position == BenchName then Bench
    else if position in OutfieldNames then Outfield
    else Infield
  }

  function TypesOf(positions: seq<string>): (types: seq<PositionType>)
    ensures |types| == |positions|
  {
    seq(|positions|, j requires 0 <= j < |positions| => PositionTypeOf(positions[j]))
  }

  /**
   * An inning has five infield positions, six with a catcher, then between
   * zero and four outfield ones; the names are distinct, none is "Bench",
   * the pitcher comes first, and the catcher is there exactly when the game
   * has one. The infield names are typed infield and the rest outfield.
   */
  lemma PositionsNeededShape(numOutfielders: int, hasCatcher: bool)
    ensures var ps := PositionsNeeded(numOutfielders, hasCatcher);
      var infield := if hasCatcher then 6 else 5;
      && |ps| == infield + OutfieldCount(numOutfielders)
      && |ps| <= infield + 4
      && (numOutfielders >= 0 ==> |ps| >= infield + (if numOutfielders < 4 then numOutfielders else 4))
      && ps[0] == Pitcher.name
      && (Catcher.name in ps <==> hasCatcher)
      && BenchName !in ps
      && Distinct(ps)
      && (forall j :: 0 <= j < |ps| ==> TypesOf(ps)[j] == if j < infield then Infield else Outfield)
  {
    var ps := PositionsNeeded(numOutfielders, hasCatcher);
    var infield := InfieldNames(hasCatcher);
    forall j | 0 <= j < |ps|
      ensures TypesOf(ps)[j] == if j < |infield| then Infield else Outfield
    {
      if j >= |infield| {
        assert ps[j] == OutfieldNames[j - |infield|];
      }
    }
  }

  // ---------------------------------------------------------------------
  // Players and one inning
  // ---------------------------------------------------------------------

  /** A player of the older generator: name, batting slot and this game's counters. */
  datatype Record = Record(name: string, battingOrder: int, infieldInnings: int, outfieldInnings: int, benchInnings: int)

  /** The players as the constructor makes them: trimmed names, slots 1..n in roster order, no innings yet. */
  function InitialRecords(playerNames: seq<string>): (rs: seq<Record>)
    ensures |rs| == |playerNames|
  {
    seq(|playerNames|, i requires 0 <= i < |playerNames| => Record(Trim(playerNames[i]), i + 1, 0, 0, 0))
  }

  function NamesOf(rs: seq<Record>): (nm: seq<string>)
    ensures |nm| == |rs|
  {
    seq(|rs|, k requires 0 <= k < |rs| => rs[k].name)
  }

  /** This generator compares players by this game's counters alone. */
  function TalliesOf(rs: seq<Record>): (t: seq<Tally>)
    ensures |t| == |rs|
  {
    seq(|rs|, k requires 0 <= k < |rs| => Tally(rs[k].infieldInnings, rs[k].outfieldInnings))
  }

  /** The value under one key of an inning map: a fielder's name, or the bench's names. */
  datatype Slot = Named(name: string) | BenchNames(names: seq<string>)

  type Inning = map<string, Slot>

  /** What an inning does to a record: one counter moves by the player's role. */
  function Advance(r: Record, role: Role): Record
  {
    match role
    case Played(Infield) => r.(infieldInnings := r.infieldInnings + 1)
    case Played(Outfield) => r.(outfieldInnings := r.outfieldInnings + 1)
    case Played(Bench) => r
    case Sat => r.(benchInnings := r.benchInnings + 1)
    case Idle => r
  }

  /** The records with every player of bench sat out one more inning. */
  function Seated(rs: seq<Record>, bench: seq<nat>): (r: seq<Record>)
    ensures |r| == |rs|
  {
    seq(|rs|, k requires 0 <= k < |rs| => if k in bench then Advance(rs[k], Sat) else rs[k])
  }

  /** Seating one more player, not seated before, advances that record alone and lists that player's name last. */
  lemma SeatOne(rs: seq<Record>, bench: seq<nat>, p: nat)
    requires p < |rs| && p !in bench && AllBelow(bench, |rs|)
    ensures Seated(rs, bench + [p]) == Seated(rs, bench)[p := Advance(Seated(rs, bench)[p], Sat)]
    ensures Seated(rs, bench)[p].name == NamesOf(rs)[p]
    ensures AllBelow(bench + [p], |rs|)
    ensures BenchList(bench + [p], NamesOf(rs)) == BenchList(bench, NamesOf(rs)) + [NamesOf(rs)[p]]
  {
    ArrangeAppend(NamesOf(rs), bench, [p]);
  }

  predicate PicksBelow(picks: seq<Option<nat>>, n: nat)
  {
    forall j :: 0 <= j < |picks| && picks[j].Some? ==> picks[j].value < n
  }

  /** The field part of an inning map: each filled position's name mapped to its player's name. */
  function FieldPart(positions: seq<string>, picks: seq<Option<nat>>, nm: seq<string>): Inning
    requires |positions| == |picks| && PicksBelow(picks, |nm|)
  {
    if positions == [] then map[]
    else
      var m := FieldPart(positions[..|positions| - 1], picks[..|picks| - 1], nm);
      match picks[|picks| - 1]
      case Some(b) => m[positions[|positions| - 1] := Named(nm[b])]
      case None => m
  }

  /** The bench list: the names of the benched players, in fielding order. */
  function BenchList(bench: seq<nat>, nm: seq<string>): (names: seq<string>)
    requires AllBelow(bench, |nm|)
    ensures |names| == |bench|
  {
    Arrange(nm, bench)
  }

  function InningOf(positions: seq<string>, o: Outcome, nm: seq<string>): Inning
    requires |o.picks| == |positions| && PicksBelow(o.picks, |nm|) && AllBelow(o.bench, |nm|)
  {
    var m := FieldPart(positions, o.picks, nm);
    if |o.bench| > 0 then m[BenchName := BenchNames(BenchList(o.bench, nm))] else m
  }

  /** Every player an assignment fields or benches is on the roster. */
  lemma AssignBelow(t: seq<Tally>, types: seq<PositionType>)
    ensures PicksBelow(Assign(t, types).picks, |t|) && AllBelow(Assign(t, types).bench, |t|)
  {
    var order := FieldingOrder(t);
    var o := Assign(t, types);
    TakenDistinct(t, order, types);
    forall j | 0 <= j < |o.picks| && o.picks[j].Some?
      ensures o.picks[j].value < |t|
    {
      assert o.picks[j].value in Taken(o.picks);
    }
    forall i | 0 <= i < |o.bench|
      ensures o.bench[i] < |t|
    {
      assert o.bench[i] in order;
    }
  }

  function Advanced(rs: seq<Record>, types: seq<PositionType>, o: Outcome): (r: seq<Record>)
    requires |o.picks| == |types|
    ensures |r| == |rs|
  {
    seq(|rs|, k requires 0 <= k < |rs| => Advance(rs[k], RoleOf(types, o, k)))
  }

  /** One inning: the greedy assignment over the counters at the inning's start. */
  function Step(rs: seq<Record>, positions: seq<string>): (seq<Record>, Inning)
  {
    var types := TypesOf(positions);
    var o := Assign(TalliesOf(rs), types);
    AssignBelow(TalliesOf(rs), types);
    (Advanced(rs, types, o), InningOf(positions, o, NamesOf(rs)))
  }

  /** n innings from the given records: the records afterwards and the inning maps in order. */
  function Play(rs: seq<Record>, positions: seq<string>, n: nat): (seq<Record>, seq<Inning>)
  {
    Run(x => Step(x, positions), rs, n)
  }

  /** The value generateLineup returns: the players twice (as batting order and as statistics) and the innings. */
  datatype LegacyLineup = LegacyLineup(battingOrder: seq<Record>, innings: seq<Inning>, stats: seq<Record>)

  // ---------------------------------------------------------------------
  // The position pass, one position at a time, as the source runs it
  // ---------------------------------------------------------------------

  /** A record after the first positions of an inning: advanced if the player already took one of them. */
  function Placed(r: Record, types: seq<PositionType>, picks: seq<Option<nat>>, k: nat): Record
    requires |types| == |picks|
  {
    var i := IndexOf(picks, k);
    if i < |picks| then Advance(r, Played(types[i])) else r
  }

  function PlacedAll(s0: seq<Record>, types: seq<PositionType>, picks: seq<Option<nat>>): (r: seq<Record>)
    requires |types| == |picks|
    ensures |r| == |s0|
  {
    seq(|s0|, k requires 0 <= k < |s0| => Placed(s0[k], types, picks, k))
  }

  /** Taking one more position changes only the record of the player who takes it. */
  lemma PlacedStep(s0: seq<Record>, types: seq<PositionType>, picks: seq<Option<nat>>, ty: PositionType, pick: Option<nat>)
    requires |types| == |picks|
    requires pick.Some? ==> pick.value < |s0| && pick.value !in Taken(picks)
    ensures pick.Some? ==> PlacedAll(s0, types, picks)[pick.value] == s0[pick.value]
    ensures PlacedAll(s0, types + [ty], picks + [pick]) ==
      if pick.Some? then PlacedAll(s0, types, picks)[pick.value := Advance(s0[pick.value], Played(ty))]
      else PlacedAll(s0, types, picks)
  {
    var before := PlacedAll(s0, types, picks);
    var after := PlacedAll(s0, types + [ty], picks + [pick]);
    forall k | 0 <= k < |s0|
      ensures after[k] == if pick == Some(k) then Advance(s0[k], Played(ty)) else before[k]
    {
      IndexOfAppend(picks, pick, k);
      var i := IndexOf(picks, k);
      if i < |picks| {
        assert (types + [ty])[i] == types[i];
      }
    }
  }

  /** Placing players moves counters only: names and batting slots stay. */
  lemma PlacedNames(s0: seq<Record>, types: seq<PositionType>, picks: seq<Option<nat>>)
    requires |types| == |picks|
    ensures NamesOf(PlacedAll(s0, types, picks)) == NamesOf(s0)
  {
  }

  /** The tallies of players not yet taken are still the inning's starting ones. */
  lemma PlacedFree(s0: seq<Record>, types: seq<PositionType>, picks: seq<Option<nat>>)
    requires |types| == |picks|
    ensures forall k :: 0 <= k < |s0| && k !in Taken(picks) ==>
      TalliesOf(PlacedAll(s0, types, picks))[k] == TalliesOf(s0)[k]
  {
    forall k | 0 <= k < |s0| && k !in Taken(picks)
      ensures TalliesOf(PlacedAll(s0, types, picks))[k] == TalliesOf(s0)[k]
    {
      assert IndexOf(picks, k) == |picks|;
    }
  }

  /** One position of the pass extends the greedy fill by the scan's choice over the live records. */
  lemma PositionFill(s0: seq<Record>, positions: seq<string>, order: seq<nat>, j: nat,
                     picks: seq<Option<nat>>, best: Option<nat>)
    requires AllBelow(order, |s0|) && j < |positions|
    requires picks == Fill(TalliesOf(s0), order, TypesOf(positions)[..j])
    requires best == Scan(TalliesOf(PlacedAll(s0, TypesOf(positions)[..j], picks)), order, Taken(picks),
                          PositionTypeOf(positions[j]))
    ensures best.Some? ==> best.value < |order|
    ensures picks + [Chosen(order, best)] == Fill(TalliesOf(s0), order, TypesOf(positions)[..j + 1])
  {
    var types := TypesOf(positions);
    var live := PlacedAll(s0, types[..j], picks);
    PlacedFree(s0, types[..j], picks);
    ScanAgrees(TalliesOf(live), TalliesOf(s0), order, Taken(picks), types[j]);
    FillStep(TalliesOf(s0), order, types, j, Chosen(order, best));
  }

  /** One position of the pass bumps only the chosen player's record. */
  lemma PositionPlaced(s0: seq<Record>, types: seq<PositionType>, order: seq<nat>, j: nat,
                       picks: seq<Option<nat>>, live: seq<Record>, best: Option<nat>)
    requires AllBelow(order, |s0|) && j < |types| && |picks| == j
    requires live == PlacedAll(s0, types[..j], picks)
    requires best.Some? ==> best.value < |order| && order[best.value] !in Taken(picks)
    ensures best.Some? ==> order[best.value] < |live|
    ensures PlacedAll(s0, types[..j + 1], picks + [Chosen(order, best)]) ==
      (if best.Some? then live[order[best.value] := Advance(live[order[best.value]], Played(types[j]))]
       else live)
  {
    assert types[..j + 1] == types[..j] + [types[j]];
    PlacedStep(s0, types[..j], picks, types[j], Chosen(order, best));
  }

  /** The field part grows by the new position when it was filled. */
  lemma FieldPartStep(positions: seq<string>, picks: seq<Option<nat>>, nm: seq<string>, j: nat, pick: Option<nat>)
    requires j < |positions| && |picks| == j && PicksBelow(picks, |nm|) && (pick.Some? ==> pick.value < |nm|)
    ensures PicksBelow(picks + [pick], |nm|)
    ensures FieldPart(positions[..j + 1], picks + [pick], nm) ==
      match pick
      case Some(b) => FieldPart(positions[..j], picks, nm)[positions[j] := Named(nm[b])]
      case None => FieldPart(positions[..j], picks, nm)
  {
    assert forall i :: 0 <= i < j ==> (picks + [pick])[i] == picks[i];
    assert positions[..j + 1][..j] == positions[..j];
    assert (picks + [pick])[..j] == picks;
  }

  /** A greedy fill only ever names roster players. */
  lemma FillBelow(t: seq<Tally>, order: seq<nat>, types: seq<PositionType>)
    requires AllBelow(order, |t|)
    ensures PicksBelow(Fill(t, order, types), |t|)
  {
    var picks := Fill(t, order, types);
    TakenDistinct(t, order, types);
    forall j | 0 <= j < |picks| && picks[j].Some?
      ensures picks[j].value < |t|
    {
      assert picks[j].value in Taken(picks);
    }
  }

  // ---------------------------------------------------------------------
  // The generator object
  // ---------------------------------------------------------------------

  class Generator {
    var players: seq<Record>
    const numInnings: int
    const numOutfielders: int
    const hasCatcher: bool
    var innings: seq<Inning>
    var positionsPerInning: seq<string>

    /** The players with trimmed names in roster order, no innings yet, and this game's positions. */
    constructor (playerNames: seq<string>, numInnings: int, numOutfielders: int, hasCatcher: bool)
      ensures players == InitialRecords(playerNames)
      ensures this.numInnings == numInnings && this.numOutfielders == numOutfielders && this.hasCatcher == hasCatcher
      ensures innings == [] && positionsPerInning == PositionsNeeded(numOutfielders, hasCatcher)
    {
      players := seq(|playerNames|, i requires 0 <= i < |playerNames| => Record(Trim(playerNames[i]), i + 1, 0, 0, 0));
      this.numInnings := numInnings;
      this.numOutfielders := numOutfielders;
      this.hasCatcher := hasCatcher;
      innings := [];
      new;
      positionsPerInning := CalculatePositionsNeeded();
    }

    /** The infield in order, then outfield names while both the configured number and the list allow. */
    method CalculatePositionsNeeded() returns (positions: seq<string>)
      ensures positions == PositionsNeeded(numOutfielders, hasCatcher)
    {
      positions := [Pitcher.name];
      if hasCatcher {
        positions := positions + [Catcher.name];
      }
      positions := positions + [FirstBase.name, SecondBase.name, ThirdBase.name, Shortstop.name];
      var i := 0;
      while i < numOutfielders && i < |OutfieldNames|
        invariant 0 <= i <= OutfieldCount(numOutfielders)
        invariant positions == InfieldNames(hasCatcher) + OutfieldNames[..i]
      {
        assert OutfieldNames[..i + 1] == OutfieldNames[..i] + [OutfieldNames[i]];
        positions := positions + [OutfieldNames[i]];
        i := i + 1;
      }
    }

    /** The scan for one position over the live players, as the source's inner loop runs it. */
    method FindBest(order: seq<nat>, taken: seq<nat>, ty: PositionType) returns (best: Option<nat>)
      requires AllBelow(order, |players|)
      ensures best == Scan(TalliesOf(players), order, taken, ty)
    {
      ghost var t := TalliesOf(players);
      best := None;
      var i := 0;
      while i < |order|
        invariant 0 <= i <= |order|
        invariant best == ScanLoop(t, order[..i], taken, ty)
      {
        assert order[..i + 1][..i] == order[..i];
        PrefixBelow(order, |t|, i + 1);
        ghost var prev := best;
        var p := order[i];
        if p in taken {
        } else if best.None? {
          best := Some(i);
        } else {
          var q := order[best.value];
          if ty == Infield {
            if players[p].infieldInnings < players[q].infieldInnings {
              best := Some(i);
            }
          } else if ty == Outfield {
            if players[p].outfieldInnings < players[q].outfieldInnings {
              best := Some(i);
            }
          }
        }
        assert best == ScanStep(t, prev, order[..i + 1], taken, ty);
        i := i + 1;
      }
      assert order[..i] == order;
    }

    /** One position: scan, record the chosen player's name under the position, bump that player's counter. */
    method PlacePosition(order: seq<nat>, j: nat, ghost s0: seq<Record>, ghost picks: seq<Option<nat>>,
                         taken: seq<nat>, inning: Inning)
      returns (taken': seq<nat>, inning': Inning, ghost picks': seq<Option<nat>>)
      requires |s0| == |players| && AllBelow(order, |s0|) && j < |positionsPerInning|
      requires picks == Fill(TalliesOf(s0), order, TypesOf(positionsPerInning)[..j]) && PicksBelow(picks, |s0|)
      requires taken == Taken(picks) && inning == FieldPart(positionsPerInning[..j], picks, NamesOf(s0))
      requires players == PlacedAll(s0, TypesOf(positionsPerInning)[..j], picks)
      modifies this
      ensures |players| == |s0| && innings == old(innings) && positionsPerInning == old(positionsPerInning)
      ensures picks' == Fill(TalliesOf(s0), order, TypesOf(positionsPerInning)[..j + 1]) && PicksBelow(picks', |s0|)
      ensures taken' == Taken(picks') && inning' == FieldPart(positionsPerInning[..j + 1], picks', NamesOf(s0))
      ensures players == PlacedAll(s0, TypesOf(positionsPerInning)[..j + 1], picks')
    {
      var position := positionsPerInning[j];
      var ty := PositionTypeOf(position);
      var best := FindBest(order, taken, ty);
      PositionFill(s0, positionsPerInning, order, j, picks, best);
      PositionPlaced(s0, TypesOf(positionsPerInning), order, j, picks, players, best);
      PlacedNames(s0, TypesOf(positionsPerInning)[..j], picks);
      picks' := picks + [Chosen(order, best)];
      FieldPartStep(positionsPerInning, picks, NamesOf(s0), j, Chosen(order, best));
      TakenStep(picks, Chosen(order, best));
      taken', inning' := taken, inning;
      if best.Some? {
        var b := order[best.value];
        assert NamesOf(players)[b] == players[b].name;
        inning' := inning[position := Named(players[b].name)];
        taken' := taken + [b];
        BumpFielder(b, ty);
      }
    }

    /** The counter bump of the position pass: infield or outfield by the position's type, nothing for the bench type. */
    method BumpFielder(b: nat, ty: PositionType)
      requires b < |players|
      modifies this
      ensures innings == old(innings) && positionsPerInning == old(positionsPerInning)
      ensures players == old(players)[b := Advance(old(players)[b], Played(ty))]
    {
      if ty == Infield {
        players := players[b := players[b].(infieldInnings := players[b].infieldInnings + 1)];
      } else if ty == Outfield {
        players := players[b := players[b].(outfieldInnings := players[b].outfieldInnings + 1)];
      }
    }

    /** The position pass of an inning, position by position. */
    method FillPositions(order: seq<nat>) returns (inning: Inning, taken: seq<nat>, ghost picks: seq<Option<nat>>)
      requires AllBelow(order, |players|)
      modifies this
      ensures |players| == |old(players)| && innings == old(innings) && positionsPerInning == old(positionsPerInning)
      ensures picks == Fill(TalliesOf(old(players)), order, TypesOf(positionsPerInning))
      ensures PicksBelow(picks, |players|)
      ensures taken == Taken(picks)
      ensures inning == FieldPart(positionsPerInning, picks, NamesOf(old(players)))
      ensures players == PlacedAll(old(players), TypesOf(positionsPerInning), picks)
    {
      ghost var s0 := players;
      taken := [];
      picks := [];
      inning := map[];
      var j := 0;
      while j < |positionsPerInning|
        invariant 0 <= j <= |positionsPerInning| && |players| == |s0|
        invariant innings == old(innings) && positionsPerInning == old(positionsPerInning)
        invariant picks == Fill(TalliesOf(s0), order, TypesOf(positionsPerInning)[..j]) && PicksBelow(picks, |s0|)
        invariant taken == Taken(picks)
        invariant inning == FieldPart(positionsPerInning[..j], picks, NamesOf(s0))
        invariant players == PlacedAll(s0, TypesOf(positionsPerInning)[..j], picks)
      {
        taken, inning, picks := PlacePosition(order, j, s0, picks, taken, inning);
        j := j + 1;
      }
      assert TypesOf(positionsPerInning)[..j] == TypesOf(positionsPerInning);
      assert positionsPerInning[..j] == positionsPerInning;
    }

    /** The bench pass: every player of order not yet placed sits, and their names are listed in order. */
    method BenchRest(order: seq<nat>, taken: seq<nat>) returns (bench: seq<nat>, names: seq<string>)
      requires AllBelow(order, |players|) && Distinct(order)
      modifies this
      ensures |players| == |old(players)| && innings == old(innings) && positionsPerInning == old(positionsPerInning)
      ensures bench == Benched(order, taken) && AllBelow(bench, |players|)
      ensures names == BenchList(bench, NamesOf(old(players)))
      ensures forall k :: 0 <= k < |players| ==>
        players[k] == if k in bench then Advance(old(players)[k], Sat) else old(players)[k]
    {
      ghost var s0 := players;
      bench, names := [], [];
      var i := 0;
      while i < |order|
        invariant 0 <= i <= |order| && |players| == |s0|
        invariant innings == old(innings) && positionsPerInning == old(positionsPerInning)
        invariant bench == Benched(order[..i], taken) && AllBelow(bench, |s0|)
        invariant names == BenchList(bench, NamesOf(s0))
        invariant players == Seated(s0, bench)
      {
        BenchedStep(order, taken, i);
        var p := order[i];
        if p !in taken {
          SeatOne(s0, bench, p);
          names := names + [players[p].name];
          bench := bench + [p];
          players := players[p := players[p].(benchInnings := players[p].benchInnings + 1)];
        }
        i := i + 1;
      }
      assert order[..i] == order;
    }

    /** One inning over the players, in place: the players and the map come out as Step describes. */
    method GenerateInningPositions(inningNumber: int) returns (inningPositions: Inning)
      modifies this
      ensures innings == old(innings) && positionsPerInning == old(positionsPerInning)
      ensures (players, inningPositions) == Step(old(players), positionsPerInning)
    {
      ghost var s0 := players;
      ghost var types := TypesOf(positionsPerInning);
      var order := FieldingOrder(TalliesOf(players));
      PermutationFacts(order, |players|);
      var taken;
      ghost var picks;
      inningPositions, taken, picks := FillPositions(order);
      ghost var s1 := players;
      PlacedNames(s0, types, picks);
      var bench, names := BenchRest(order, taken);
      if |bench| > 0 {
        inningPositions := inningPositions[BenchName := BenchNames(names)];
      }
      ghost var o := Assign(TalliesOf(s0), types);
      assert o.picks == picks && o.bench == bench;
      StepRecords(s0, s1, players, types, o);
    }

    /** One turn of the inning loop: an inning over the players, its map appended. */
    method PlayOne(ghost s0: seq<Record>, ghost start: seq<Inning>, played: nat)
      requires players == Play(s0, positionsPerInning, played).0
      requires innings == start + Play(s0, positionsPerInning, played).1
      modifies this
      ensures positionsPerInning == old(positionsPerInning)
      ensures players == Play(s0, positionsPerInning, played + 1).0
      ensures innings == start + Play(s0, positionsPerInning, played + 1).1
    {
      var m := GenerateInningPositions(played);
      innings := innings + [m];
    }

    /** numInnings innings over the players, each map appended to the ones held already. */
    method GenerateLineup() returns (result: LegacyLineup)
      modifies this
      ensures positionsPerInning == old(positionsPerInning)
      ensures players == Play(old(players), positionsPerInning, Max0(numInnings)).0
      ensures innings == old(innings) + Play(old(players), positionsPerInning, Max0(numInnings)).1
      ensures result == LegacyLineup(players, innings, players)
    {
      ghost var s0 := players;
      ghost var start := innings;
      var inning := 0;
      while inning < numInnings
        invariant 0 <= inning <= Max0(numInnings)
        invariant positionsPerInning == old(positionsPerInning)
        invariant players == Play(s0, positionsPerInning, inning).0
        invariant innings == start + Play(s0, positionsPerInning, inning).1
      {
        PlayOne(s0, start, inning);
        inning := inning + 1;
      }
      InningLoopEnds(inning, numInnings);
      result := LegacyLineup(players, innings, players);
    }
  }

  /** The two passes together advance every record by the player's role. */
  lemma StepRecords(s0: seq<Record>, s1: seq<Record>, s2: seq<Record>, types: seq<PositionType>, o: Outcome)
    requires |o.picks| == |types| && |s1| == |s0| && |s2| == |s0|
    requires s1 == PlacedAll(s0, types, o.picks)
    requires forall k :: 0 <= k < |s2| ==> s2[k] == if k in o.bench then Advance(s1[k], Sat) else s1[k]
    requires forall k :: k in o.bench ==> k !in Taken(o.picks)
    ensures s2 == Advanced(s0, types, o)
  {
    forall k | 0 <= k < |s2|
      ensures s2[k] == Advanced(s0, types, o)[k]
    {
      if k in o.bench {
        assert IndexOf(o.picks, k) == |o.picks|;
      }
    }
  }

  // ---------------------------------------------------------------------
  // Properties
  // ---------------------------------------------------------------------

  /** The innings a player has spent on the field or on the bench. */
  function Total(r: Record): int
  {
    r.infieldInnings + r.outfieldInnings + r.benchInnings
  }

  /** Exactly one of the three counters rose by one and nothing else changed. */
  predicate OneInning(before: Record, after: Record)
  {
    || after == before.(infieldInnings := before.infieldInnings + 1)
    || after == before.(outfieldInnings := before.outfieldInnings + 1)
    || after == before.(benchInnings := before.benchInnings + 1)
  }

  /** With every player placed or benched and no bench-type position, each record moves by one counter. */
  lemma AdvancedOneInning(rs: seq<Record>, types: seq<PositionType>, o: Outcome)
    requires |o.picks| == |types| && Partitions(o, |rs|)
    requires forall j :: 0 <= j < |types| ==> types[j] != Bench
    ensures forall k :: 0 <= k < |rs| ==> OneInning(rs[k], Advanced(rs, types, o)[k])
  {
    forall k | 0 <= k < |rs|
      ensures OneInning(rs[k], Advanced(rs, types, o)[k])
    {
      assert k in Taken(o.picks) + o.bench;
      if IndexOf(o.picks, k) == |o.picks| {
        assert Some(k) !in o.picks;
      }
    }
  }

  /** Over an inning whose positions are not "Bench", every player's record moves by exactly one counter. */
  lemma StepOneInning(rs: seq<Record>, positions: seq<string>)
    requires BenchName !in positions
    ensures |Step(rs, positions).0| == |rs|
    ensures forall k :: 0 <= k < |rs| ==> OneInning(rs[k], Step(rs, positions).0[k])
  {
    var types := TypesOf(positions);
    AssignPartitions(TalliesOf(rs), types);
    AdvancedOneInning(rs, types, Assign(TalliesOf(rs), types));
  }

  lemma {:induction false} PlayLength(rs: seq<Record>, positions: seq<string>, n: nat)
    ensures |Play(rs, positions, n).0| == |rs|
  {
    if n > 0 {
      PlayLength(rs, positions, n - 1);
      assert Play(rs, positions, n).0 == Step(Play(rs, positions, n - 1).0, positions).0;
    }
  }

  /** Records n-1 innings past rs, moved on by one inning each, are n innings past rs. */
  lemma ChainInning(rs: seq<Record>, prev: seq<Record>, next: seq<Record>, n: nat)
    requires n > 0 && |prev| == |rs| && |next| == |rs|
    requires forall k :: 0 <= k < |rs| ==>
      && prev[k].name == rs[k].name && prev[k].battingOrder == rs[k].battingOrder
      && Total(prev[k]) == Total(rs[k]) + (n - 1)
    requires forall k :: 0 <= k < |prev| ==> OneInning(prev[k], next[k])
    ensures forall k :: 0 <= k < |rs| ==>
      && next[k].name == rs[k].name && next[k].battingOrder == rs[k].battingOrder
      && Total(next[k]) == Total(rs[k]) + n
  {
  }

  /** After n innings every player has the same name and slot and exactly n more innings. */
  lemma {:induction false} PlayFacts(rs: seq<Record>, positions: seq<string>, n: nat)
    requires BenchName !in positions
    ensures var r := Play(rs, positions, n).0;
      && |r| == |rs|
      && forall k :: 0 <= k < |rs| ==>
        && r[k].name == rs[k].name && r[k].battingOrder == rs[k].battingOrder
        && Total(r[k]) == Total(rs[k]) + n
  {
    if n > 0 {
      PlayFacts(rs, positions, n - 1);
      var prev := Play(rs, positions, n - 1).0;
      StepOneInning(prev, positions);
      PlayLength(rs, positions, n);
      ChainInning(rs, prev, Play(rs, positions, n).0, n);
    }
  }

  /** The names an inning map lists: the fielders in position order, then the bench list. */
  function FieldNames(m: Inning, positions: seq<string>): seq<string>
  {
    if positions == [] then []
    else
      var key := positions[|positions| - 1];
      FieldNames(m, positions[..|positions| - 1]) + (if key in m && m[key].Named? then [m[key].name] else [])
  }

  function Listed(m: Inning, positions: seq<string>): seq<string>
  {
    FieldNames(m, positions) + (if BenchName in m && m[BenchName].BenchNames? then m[BenchName].names else [])
  }

  /** A key that is not a position does not change what the positions list. */
  lemma {:induction false} FieldNamesOther(m: Inning, positions: seq<string>, key: string, v: Slot)
    requires key !in positions
    ensures FieldNames(m[key := v], positions) == FieldNames(m, positions)
  {
    if positions != [] {
      FieldNamesOther(m, positions[..|positions| - 1], key, v);
    }
  }

  /** The fielders of a field part, in position order, are the placed players' names in placement order. */
  lemma {:induction false} FieldPartNames(positions: seq<string>, picks: seq<Option<nat>>, nm: seq<string>)
    requires |positions| == |picks| && PicksBelow(picks, |nm|) && Distinct(positions)
    ensures AllBelow(Taken(picks), |nm|)
    ensures FieldNames(FieldPart(positions, picks, nm), positions) == Arrange(nm, Taken(picks))
  {
    forall i | 0 <= i < |Taken(picks)|
      ensures Taken(picks)[i] < |nm|
    {
      assert Taken(picks)[i] in Taken(picks);
    }
    if positions != [] {
      var n := |positions| - 1;
      var ps, pk := positions[..n], picks[..n];
      assert Distinct(ps);
      assert positions[n] !in ps;
      FieldPartNames(ps, pk, nm);
      var m := FieldPart(ps, pk, nm);
      assert picks == pk + [picks[n]];
      TakenStep(pk, picks[n]);
      match picks[n]
      case Some(b) =>
        FieldNamesOther(m, ps, positions[n], Named(nm[b]));
        ArrangeAppend(nm, Taken(pk), [b]);
      case None =>
        FieldPartKeys(ps, pk, nm);
        assert FieldPart(positions, picks, nm) == m;
    }
  }

  /**
   * An inning's map lists every player exactly once: the names listed under
   * the positions and in the bench list are, as a multiset, the roster's
   * names. Each position is filled exactly when there are players for it,
   * and "Bench" is present exactly when there are more players than
   * positions, holding the surplus.
   */
  lemma InningListsEveryone(rs: seq<Record>, positions: seq<string>)
    requires Distinct(positions) && BenchName !in positions
    ensures var m := Step(rs, positions).1;
      && multiset(Listed(m, positions)) == multiset(NamesOf(rs))
      && (forall j :: 0 <= j < |positions| ==> (positions[j] in m <==> j < |rs|))
      && (BenchName in m <==> |rs| > |positions|)
      && (BenchName in m ==> m[BenchName].BenchNames? && |m[BenchName].names| == |rs| - |positions|)
  {
    var types := TypesOf(positions);
    var t := TalliesOf(rs);
    var o := Assign(t, types);
    var nm := NamesOf(rs);
    AssignBelow(t, types);
    AssignPartitions(t, types);
    InningFields(positions, o, nm);
    forall j | 0 <= j < |positions|
      ensures o.picks[j].Some? <==> j < |rs|
    {
      FilledIffPlayersLeft(t, types, j);
    }
    BenchSize(t, types);
    InningNames(positions, o, nm);
  }

  /** Position j is a key of the field part exactly when it was filled. */
  lemma {:induction false} FieldPartKeys(positions: seq<string>, picks: seq<Option<nat>>, nm: seq<string>)
    requires |positions| == |picks| && PicksBelow(picks, |nm|) && Distinct(positions)
    ensures forall j :: 0 <= j < |positions| ==> (positions[j] in FieldPart(positions, picks, nm) <==> picks[j].Some?)
    ensures forall key :: key in FieldPart(positions, picks, nm) ==> key in positions
  {
    if positions != [] {
      var n := |positions| - 1;
      assert Distinct(positions[..n]);
      FieldPartKeys(positions[..n], picks[..n], nm);
    }
  }

  lemma InningFields(positions: seq<string>, o: Outcome, nm: seq<string>)
    requires |o.picks| == |positions| && PicksBelow(o.picks, |nm|) && AllBelow(o.bench, |nm|)
    requires Distinct(positions) && BenchName !in positions
    ensures var m := InningOf(positions, o, nm);
      && (forall j :: 0 <= j < |positions| ==> (positions[j] in m <==> o.picks[j].Some?))
      && (BenchName in m <==> |o.bench| > 0)
      && (BenchName in m ==> m[BenchName] == BenchNames(BenchList(o.bench, nm)))
  {
    FieldPartKeys(positions, o.picks, nm);
  }

  /** The listed names are the placed players' names, then the benched players' names. */
  lemma InningListed(positions: seq<string>, o: Outcome, nm: seq<string>)
    requires |o.picks| == |positions| && PicksBelow(o.picks, |nm|) && AllBelow(o.bench, |nm|)
    requires Distinct(positions) && BenchName !in positions && Partitions(o, |nm|)
    ensures AllBelow(Taken(o.picks) + o.bench, |nm|)
    ensures Listed(InningOf(positions, o, nm), positions) == Arrange(nm, Taken(o.picks) + o.bench)
  {
    var all := Taken(o.picks) + o.bench;
    forall k | 0 <= k < |all|
      ensures all[k] < |nm|
    {
      assert all[k] in all;
    }
    var m0 := FieldPart(positions, o.picks, nm);
    FieldPartNames(positions, o.picks, nm);
    FieldPartKeys(positions, o.picks, nm);
    if |o.bench| > 0 {
      FieldNamesOther(m0, positions, BenchName, BenchNames(BenchList(o.bench, nm)));
    }
    ArrangeAppend(nm, Taken(o.picks), o.bench);
  }

  /** Every name of the roster is listed once: on the field or on the bench. */
  lemma InningNames(positions: seq<string>, o: Outcome, nm: seq<string>)
    requires |o.picks| == |positions| && PicksBelow(o.picks, |nm|) && AllBelow(o.bench, |nm|)
    requires Distinct(positions) && BenchName !in positions && Partitions(o, |nm|)
    ensures multiset(Listed(InningOf(positions, o, nm), positions)) == multiset(nm)
  {
    InningListed(positions, o, nm);
    DistinctPermutation(Taken(o.picks) + o.bench, |nm|);
    ArrangePermutation(nm, Taken(o.picks) + o.bench);
  }

  /**
   * A generator made from a roster and run once: every player keeps the
   * trimmed name and the roster slot, and has exactly max(0, numInnings)
   * innings between field and bench; there is one map per inning, and each
   * lists the whole roster once.
   */
  lemma FreshGame(playerNames: seq<string>, numInnings: int, numOutfielders: int, hasCatcher: bool, i: nat)
    requires i < Max0(numInnings)
    ensures var ps := PositionsNeeded(numOutfielders, hasCatcher);
      var r := Play(InitialRecords(playerNames), ps, Max0(numInnings));
      && |r.0| == |playerNames| && |r.1| == Max0(numInnings)
      && (forall k :: 0 <= k < |playerNames| ==>
            && r.0[k].name == Trim(playerNames[k]) && r.0[k].battingOrder == k + 1
            && Total(r.0[k]) == Max0(numInnings))
      && multiset(Listed(r.1[i], ps)) == multiset(NamesOf(InitialRecords(playerNames)))
  {
    var ps := PositionsNeeded(numOutfielders, hasCatcher);
    var rs := InitialRecords(playerNames);
    PositionsNeededShape(numOutfielders, hasCatcher);
    PlayFacts(rs, ps, Max0(numInnings));
    PlayListsEveryone(rs, ps, Max0(numInnings), i);
  }

  /** Inning i of a run is one Step from the records after i innings. */
  lemma PlayInning(rs: seq<Record>, positions: seq<string>, n: nat, i: nat)
    requires i < n
    ensures Play(rs, positions, n).1[i] == Step(Play(rs, positions, i).0, positions).1
  {
    var step := x => Step(x, positions);
    RunPrefix(step, rs, n, i + 1);
    assert Run(step, rs, n).1[i] == Run(step, rs, n).1[..i + 1][i];
  }

  /** No name changes over a run, so every inning lists the starting roster's names. */
  lemma PlayListsEveryone(rs: seq<Record>, positions: seq<string>, n: nat, i: nat)
    requires i < n && Distinct(positions) && BenchName !in positions
    ensures multiset(Listed(Play(rs, positions, n).1[i], positions)) == multiset(NamesOf(rs))
  {
    PlayInning(rs, positions, n, i);
    var before := Play(rs, positions, i).0;
    PlayFacts(rs, positions, i);
    assert NamesOf(before) == NamesOf(rs);
    InningListsEveryone(before, positions);
  }
}
