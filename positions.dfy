/**
 * The position catalogue of src/utils/lineupGenerator.js and the builder of
 * a game's ordered position list.
 */
module Positions {
  import opened Greedy

  /** A catalogue entry: display name and scorekeeping number. */
  datatype Position = Position(name: string, number: int)

  const Pitcher := Position("Pitcher", 1)
  const Catcher := Position("Catcher", 2)
  const FirstBase := Position("1st Base", 3)
  const SecondBase := Position("2nd Base", 4)
  const ThirdBase := Position("3rd Base", 5)
  const Shortstop := Position("Shortstop", 6)
  const LeftField := Position("Left Field", 7)
  const CenterField := Position("Center Field", 8)
  const RightField := Position("Right Field", 9)
  const RightCenter := Position("Right Center", 10)
  const BenchPosition := Position("Bench", 0)

  /** The key under which an inning map keeps its bench list. */
  const BenchName := "Bench"

  /** The four catalogue outfield positions, in the order they are handed out. */
  const OutfieldCatalog: seq<Position> := [LeftField, CenterField, RightField, RightCenter]

  /**
   * Number 0 is the bench; the four catalogue outfield entries are the
   * outfield; anything else, including a synthesized "Outfield N", is infield.
   * (The source tests catalogue membership by object identity; the only
   * positions that reach this function are the catalogue objects themselves
   * and synthesized ones, whose numbers are 14 and up, so value membership
   * decides the same.)
   */
  function GetPositionType(p: Position): PositionType
  {
    if p.number == 0 then Bench
    else if p in OutfieldCatalog then Outfield
    else Infield
  }

  function DigitChar(d: nat): char
    requires d < 10
  {
    "0123456789"[d]
  }

  /** Decimal digits of n, as JavaScript's template literal prints a non-negative integer. */
  function NatToString(n: nat): (s: string)
    ensures |s| >= 1
    decreases n
  {
    if n < 10 then [DigitChar(n)] else NatToString(n / 10) + [DigitChar(n % 10)]
  }

  function DigitValue(c: char): nat
  {
    if '0' <= c <= '9' then (c as int - '0' as int) as nat else 0
  }

  function ParseNat(s: string): nat
  {
    if s == [] then 0 else ParseNat(s[..|s| - 1]) * 10 + DigitValue(s[|s| - 1])
  }

  lemma {:induction false} NatToStringRoundTrip(n: nat)
    ensures ParseNat(NatToString(n)) == n
    decreases n
  {
    if n >= 10 {
      NatToStringRoundTrip(n / 10);
      var s := NatToString(n);
      assert s[..|s| - 1] == NatToString(n / 10);
    }
  }

  lemma NatToStringInjective(a: nat, b: nat)
    requires NatToString(a) == NatToString(b)
    ensures a == b
  {
    NatToStringRoundTrip(a);
    NatToStringRoundTrip(b);
  }

  /** Outfield slot i (0-based): a catalogue entry for the first four, then "Outfield i+1" numbered 10+i. */
  function OutfieldSlot(i: nat): Position
  {
    if i < |OutfieldCatalog| then OutfieldCatalog[i]
    else Position("Outfield " + NatToString(i + 1), 10 + i)
  }

  function InfieldPositions(hasCatcher: bool): seq<Position>
  {
    [Pitcher] + (if hasCatcher then [Catcher] else []) + [FirstBase, SecondBase, ThirdBase, Shortstop]
  }

  function Max0(n: int): nat
  {
    if n > 0 then n else 0
  }

  /** A loop `for (i = 0; i < n; i++)` stops after max(0, n) rounds. */
  lemma InningLoopEnds(i: int, n: int)
    requires 0 <= i <= Max0(n) && !(i < n)
    ensures i == Max0(n)
  {
  }

  /** The position list of a game: the infield in fixed order, then the outfield slots. */
  function PositionsFor(numOutfielders: int, hasCatcher: bool): seq<Position>
  {
    InfieldPositions(hasCatcher) + seq(Max0(numOutfielders), i requires 0 <= i => OutfieldSlot(i))
  }

  /** Builds the list by pushing, as the source does. */
  method GetPositionsForGame(numOutfielders: int, hasCatcher: bool) returns (positions: seq<Position>)
    ensures positions == PositionsFor(numOutfielders, hasCatcher)
    ensures |positions| == (if hasCatcher then 6 else 5) + Max0(numOutfielders)
  {
    positions := [Pitcher];
    if hasCatcher {
      positions := positions + [Catcher];
    }
    positions := positions + [FirstBase, SecondBase, ThirdBase, Shortstop];
    var infield := positions;
    var i := 0;
    while i < numOutfielders
      invariant 0 <= i <= Max0(numOutfielders)
      invariant positions == infield + seq(i, k requires 0 <= k => OutfieldSlot(k))
    {
      if i < |OutfieldCatalog| {
        positions := positions + [OutfieldCatalog[i]];
      } else {
        positions := positions + [Position("Outfield " + NatToString(i + 1), 10 + i)];
      }
      i := i + 1;
    }
  }

  // ---------------------------------------------------------------------
  // Properties of the position list
  // ---------------------------------------------------------------------

  /**
   * Shape: Pitcher first, the Catcher second exactly when enabled, then the
   * four bases in fixed order, then the outfield: slot i is the i-th catalogue
   * outfield entry for i < 4 and "Outfield i+1" numbered 10+i beyond.
   */
  lemma PositionsShape(numOutfielders: int, hasCatcher: bool)
    ensures var ps := PositionsFor(numOutfielders, hasCatcher);
      var c := if hasCatcher then 1 else 0;
      && |ps| == 5 + c + Max0(numOutfielders)
      && ps[0] == Pitcher
      && (hasCatcher ==> ps[1] == Catcher)
      && (Catcher in ps <==> hasCatcher)
      && ps[1 + c .. 5 + c] == [FirstBase, SecondBase, ThirdBase, Shortstop]
      && (forall i :: 0 <= i < Max0(numOutfielders) ==>
            ps[5 + c + i] == if i < 4 then OutfieldCatalog[i]
                             else Position("Outfield " + NatToString(i + 1), 10 + i))
  {
    var ps := PositionsFor(numOutfielders, hasCatcher);
    var c := if hasCatcher then 1 else 0;
    if !hasCatcher {
      forall i | 0 <= i < |ps|
        ensures ps[i] != Catcher
      {
        if i >= 5 {
          assert ps[i] == OutfieldSlot(i - 5);
        }
      }
    } else {
      assert ps[1] == Catcher;
    }
  }

  lemma OutfieldNameStart(i: nat)
    requires i >= |OutfieldCatalog|
    ensures OutfieldSlot(i).name[0] == 'O'
  {
  }

  /**
   * The names of a game's positions are pairwise different and none is
   * "Bench", and no position has number 0, so every position is a field
   * position and fills its own key of the inning map.
   */
  lemma {:induction false} PositionNamesDistinct(numOutfielders: int, hasCatcher: bool)
    ensures var ps := PositionsFor(numOutfielders, hasCatcher);
      && (forall a, b :: 0 <= a < b < |ps| ==> ps[a].name != ps[b].name)
      && (forall a :: 0 <= a < |ps| ==> ps[a].name != BenchName && ps[a].number != 0)
  {
    var ps := PositionsFor(numOutfielders, hasCatcher);
    var inf := InfieldPositions(hasCatcher);
    InfieldFacts(hasCatcher);
    forall a | 0 <= a < |ps|
      ensures ps[a].name != BenchName && ps[a].number != 0
    {
      if a >= |inf| {
        assert ps[a] == OutfieldSlot(a - |inf|);
        SlotIsField(a - |inf|);
      } else {
        assert ps[a] == inf[a];
      }
    }
    forall a, b | 0 <= a < b < |ps|
      ensures ps[a].name != ps[b].name
    {
      if b < |inf| {
        assert ps[a] == inf[a] && ps[b] == inf[b];
      } else {
        assert ps[b] == OutfieldSlot(b - |inf|);
        if a >= |inf| {
          assert ps[a] == OutfieldSlot(a - |inf|);
          SlotNamesDistinct(a - |inf|, b - |inf|);
        } else {
          SlotNotInfield(b - |inf|, hasCatcher);
          assert ps[a] in inf;
        }
      }
    }
  }

  /** The infield names are pairwise different, none is "Bench", and no infield number is 0. */
  lemma InfieldFacts(hasCatcher: bool)
    ensures var inf := InfieldPositions(hasCatcher);
      && (forall a, b :: 0 <= a < b < |inf| ==> inf[a].name != inf[b].name)
      && (forall a :: 0 <= a < |inf| ==> inf[a].name != BenchName && inf[a].number != 0)
  {
  }

  /** An outfield slot is a field position: not named "Bench", and not numbered 0. */
  lemma SlotIsField(i: nat)
    ensures OutfieldSlot(i).name != BenchName && OutfieldSlot(i).number != 0
  {
    if i >= 4 {
      OutfieldNameStart(i);
    }
  }

  /** No outfield slot shares its name with an infield position. */
  lemma SlotNotInfield(i: nat, hasCatcher: bool)
    ensures forall p :: p in InfieldPositions(hasCatcher) ==> p.name != OutfieldSlot(i).name
  {
    if i >= 4 {
      OutfieldNameStart(i);
    }
  }

  /** Two different outfield slots have different names. */
  lemma SlotNamesDistinct(i: nat, j: nat)
    requires i < j
    ensures OutfieldSlot(i).name != OutfieldSlot(j).name
  {
    if j >= 4 {
      OutfieldNameStart(j);
      if i >= 4 {
        var pre := "Outfield ";
        if OutfieldSlot(i).name == OutfieldSlot(j).name {
          assert NatToString(i + 1) == OutfieldSlot(i).name[|pre|..];
          assert NatToString(j + 1) == OutfieldSlot(j).name[|pre|..];
          NatToStringInjective(i + 1, j + 1);
        }
      }
    }
  }

  /**
   * Classification: the infield entries (including the Catcher) are infield,
   * catalogue outfield slots are outfield, and synthesized slots past the
   * fourth are classified as infield.
   */
  lemma PositionTypes(numOutfielders: int, hasCatcher: bool)
    ensures var ps := PositionsFor(numOutfielders, hasCatcher);
      var inf := |InfieldPositions(hasCatcher)|;
      && (forall a :: 0 <= a < inf ==> GetPositionType(ps[a]) == Infield)
      && (forall a :: inf <= a < |ps| ==>
            GetPositionType(ps[a]) == if a - inf < 4 then Outfield else Infield)
  {
    var ps := PositionsFor(numOutfielders, hasCatcher);
    var inf := |InfieldPositions(hasCatcher)|;
    forall a | inf <= a < |ps|
      ensures GetPositionType(ps[a]) == if a - inf < 4 then Outfield else Infield
    {
      assert ps[a] == OutfieldSlot(a - inf);
      if a - inf >= 4 {
        assert ps[a].number >= 14;
      }
    }
  }
}
