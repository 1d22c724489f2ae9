/**
 * Per-player statistics accumulated over the saved games of a team
 * (calculateHistoricalStats in src/utils/lineupGenerator.js).
 */
module History {
  import opened Wrappers
  import opened Records
  import Tallies

  /** What the generator remembers about one current player. */
  datatype HistStat = HistStat(
    totalInfield: int,
    totalOutfield: int,
    totalBench: int,
    battingPositions: Tallies.Tally<int>,
    gamesPlayed: nat)

  const ZeroStat := HistStat(0, 0, 0, [], 0)

  /** Folds one saved row into a player's statistics. */
  function Bump(s: HistStat, e: HistoryEntry): HistStat
  {
    var slot := BattingSlot(e);
    HistStat(
      s.totalInfield + GetOr(e.infieldInnings, 0),
      s.totalOutfield + GetOr(e.outfieldInnings, 0),
      s.totalBench + GetOr(e.benchInnings, 0),
      if slot.Some? then Tallies.Increment(s.battingPositions, slot.value) else s.battingPositions,
      s.gamesPlayed + 1)
  }

  /** A zero record for every roster name. */
  function InitStats(players: seq<Player>): map<string, HistStat>
  {
    if players == [] then map[]
    else InitStats(players[..|players| - 1])[players[|players| - 1].name := ZeroStat]
  }

  /** Folds the rows of one batting order, skipping names without a record. */
  function AddEntries(st: map<string, HistStat>, es: seq<HistoryEntry>): map<string, HistStat>
  {
    if es == [] then st
    else
      var prev := AddEntries(st, es[..|es| - 1]);
      var e := es[|es| - 1];
      if e.name in prev then prev[e.name := Bump(prev[e.name], e)] else prev
  }

  /** Folds the saved games in order, skipping games without a batting order. */
  function AddGames(st: map<string, HistStat>, games: seq<GameRecord>): map<string, HistStat>
  {
    if games == [] then st
    else
      var prev := AddGames(st, games[..|games| - 1]);
      match OrderOf(games[|games| - 1])
      case None => prev
      case Some(es) => AddEntries(prev, es)
  }

  /** The statistics the generator computes for a roster from a history. */
  function HistoricalStatsOf(players: seq<Player>, games: seq<GameRecord>): map<string, HistStat>
  {
    AddGames(InitStats(players), games)
  }

  method CalculateHistoricalStats(players: seq<Player>, games: seq<GameRecord>)
    returns (stats: map<string, HistStat>)
    ensures stats == HistoricalStatsOf(players, games)
    ensures stats.Keys == Names(players)
  {
    stats := map[];
    var i := 0;
    while i < |players|
      invariant 0 <= i <= |players|
      invariant stats == InitStats(players[..i])
    {
      assert players[..i + 1][..i] == players[..i];
      stats := stats[players[i].name := ZeroStat];
      i := i + 1;
    }
    assert players[..i] == players;
    var g := 0;
    while g < |games|
      invariant 0 <= g <= |games|
      invariant stats == AddGames(InitStats(players), games[..g])
    {
      assert games[..g + 1][..g] == games[..g];
      var game := games[g];
      if game.lineup.Some? && game.lineup.value.battingOrder.Some? {
        var es := game.lineup.value.battingOrder.value;
        var before := stats;
        var j := 0;
        while j < |es|
          invariant 0 <= j <= |es|
          invariant stats == AddEntries(before, es[..j])
        {
          assert es[..j + 1][..j] == es[..j];
          var e := es[j];
          if e.name in stats {
            stats := stats[e.name := Bump(stats[e.name], e)];
          }
          j := j + 1;
        }
        assert es[..j] == es;
      }
      g := g + 1;
    }
    assert games[..g] == games;
    StatsKeys(players, games);
  }

  // ---------------------------------------------------------------------
  // Closed forms
  // ---------------------------------------------------------------------

  /** The quantities a statistics record keeps, each a sum over saved rows. */
  datatype Field = InfieldInnings | OutfieldInnings | BenchInnings | Games | Slot(v: int)

  /** What one saved row adds to a field. */
  function Contribution(e: HistoryEntry, f: Field): int
  {
    match f
    case InfieldInnings => GetOr(e.infieldInnings, 0)
    case OutfieldInnings => GetOr(e.outfieldInnings, 0)
    case BenchInnings => GetOr(e.benchInnings, 0)
    case Games => 1
    case Slot(v) => if BattingSlot(e) == Some(v) then 1 else 0
  }

  /** The value of a field in a statistics record. */
  function FieldOf(s: HistStat, f: Field): int
  {
    match f
    case InfieldInnings => s.totalInfield
    case OutfieldInnings => s.totalOutfield
    case BenchInnings => s.totalBench
    case Games => s.gamesPlayed
    case Slot(v) => Tallies.CountAt(s.battingPositions, v)
  }

  /** The sum of a field over the rows of one batting order that carry the given name. */
  function EntrySum(es: seq<HistoryEntry>, name: string, f: Field): int
  {
    if es == [] then 0
    else
      EntrySum(es[..|es| - 1], name, f)
        + (if es[|es| - 1].name == name then Contribution(es[|es| - 1], f) else 0)
  }

  /** The sum of a field over every saved game that has a batting order. */
  function GameSum(games: seq<GameRecord>, name: string, f: Field): int
  {
    if games == [] then 0
    else
      GameSum(games[..|games| - 1], name, f)
        + match OrderOf(games[|games| - 1])
          case None => 0
          case Some(es) => EntrySum(es, name, f)
  }

  /** A batting-position tally holds each slot once, only non-zero slots, and positive counts. */
  predicate SlotsWellFormed(t: Tallies.Tally<int>)
  {
    Tallies.WellFormed(t) && forall i :: 0 <= i < |t| ==> t[i].0 != 0
  }

  predicate WellFormed(st: map<string, HistStat>)
  {
    forall n :: n in st ==> SlotsWellFormed(st[n].battingPositions)
  }

  lemma BumpField(s: HistStat, e: HistoryEntry, f: Field)
    ensures FieldOf(Bump(s, e), f) == FieldOf(s, f) + Contribution(e, f)
  {
    if f.Slot? && BattingSlot(e).Some? {
      Tallies.IncrementCount(s.battingPositions, BattingSlot(e).value, f.v);
    }
  }

  lemma BumpWellFormed(s: HistStat, e: HistoryEntry)
    requires SlotsWellFormed(s.battingPositions)
    ensures SlotsWellFormed(Bump(s, e).battingPositions)
  {
    var slot := BattingSlot(e);
    if slot.Some? {
      var t := s.battingPositions;
      var r := Tallies.Increment(t, slot.value);
      Tallies.IncrementWellFormed(t, slot.value);
      forall i | 0 <= i < |r|
        ensures r[i].0 != 0
      {
        Tallies.IncrementKeys(t, slot.value, r[i].0);
        assert Tallies.HasKey(r, r[i].0);
      }
    }
  }

  lemma InitStatsFacts(players: seq<Player>)
    ensures InitStats(players).Keys == Names(players)
    ensures forall n :: n in InitStats(players) ==> InitStats(players)[n] == ZeroStat
  {
    if players != [] {
      var pre := players[..|players| - 1];
      InitStatsFacts(pre);
      assert players == pre + [players[|players| - 1]];
      assert Names(players) == Names(pre) + {players[|players| - 1].name};
    }
  }

  lemma {:induction false} AddEntriesFacts(st: map<string, HistStat>, es: seq<HistoryEntry>, name: string, f: Field)
    ensures AddEntries(st, es).Keys == st.Keys
    ensures WellFormed(st) ==> WellFormed(AddEntries(st, es))
    ensures name in st ==> FieldOf(AddEntries(st, es)[name], f) == FieldOf(st[name], f) + EntrySum(es, name, f)
  {
    if es != [] {
      var pre := es[..|es| - 1];
      var e := es[|es| - 1];
      AddEntriesFacts(st, pre, name, f);
      var prev := AddEntries(st, pre);
      if e.name in prev {
        BumpField(prev[e.name], e, f);
        if WellFormed(st) {
          BumpWellFormed(prev[e.name], e);
        }
      }
    }
  }

  lemma {:induction false} AddGamesFacts(st: map<string, HistStat>, games: seq<GameRecord>, name: string, f: Field)
    ensures AddGames(st, games).Keys == st.Keys
    ensures WellFormed(st) ==> WellFormed(AddGames(st, games))
    ensures name in st ==> FieldOf(AddGames(st, games)[name], f) == FieldOf(st[name], f) + GameSum(games, name, f)
  {
    if games != [] {
      var pre := games[..|games| - 1];
      AddGamesFacts(st, pre, name, f);
      match OrderOf(games[|games| - 1])
      case None =>
      case Some(es) => AddEntriesFacts(AddGames(st, pre), es, name, f);
    }
  }

  lemma StatsKeys(players: seq<Player>, games: seq<GameRecord>)
    ensures HistoricalStatsOf(players, games).Keys == Names(players)
  {
    InitStatsFacts(players);
    AddGamesFacts(InitStats(players), games, "", Games);
  }

  /**
   * Exactly the current roster gets a record, and each of its quantities is
   * the sum over every saved game that has a batting order of what that
   * game's rows under the player's name contribute: innings counted with
   * absent values as 0, one game per row, and one count in slot v per row
   * whose batting slot is v and non-zero. The tallies stay well formed.
   */
  lemma HistoricalStatsClosedForm(players: seq<Player>, games: seq<GameRecord>, name: string, f: Field)
    ensures var stats := HistoricalStatsOf(players, games);
      && stats.Keys == Names(players)
      && WellFormed(stats)
      && (name in Names(players) ==> FieldOf(stats[name], f) == GameSum(games, name, f))
  {
    InitStatsFacts(players);
    AddGamesFacts(InitStats(players), games, name, f);
  }

  lemma {:induction false} EntrySumAppend(a: seq<HistoryEntry>, b: seq<HistoryEntry>, name: string, f: Field)
    ensures EntrySum(a + b, name, f) == EntrySum(a, name, f) + EntrySum(b, name, f)
    decreases |b|
  {
    if b != [] {
      var pre := b[..|b| - 1];
      assert (a + b)[..|a + b| - 1] == a + pre;
      EntrySumAppend(a, pre, name, f);
    } else {
      assert a + b == a;
    }
  }

  /**
   * The sums are additive over a history split in two, so the statistics do
   * not depend on the order in which saved games are visited.
   */
  lemma {:induction false} GameSumAppend(a: seq<GameRecord>, b: seq<GameRecord>, name: string, f: Field)
    ensures GameSum(a + b, name, f) == GameSum(a, name, f) + GameSum(b, name, f)
    decreases |b|
  {
    if b != [] {
      var pre := b[..|b| - 1];
      assert (a + b)[..|a + b| - 1] == a + pre;
      GameSumAppend(a, pre, name, f);
    } else {
      assert a + b == a;
    }
  }

  /** Reordering two blocks of saved games leaves every statistic unchanged. */
  lemma HistoryOrderIrrelevant(players: seq<Player>, a: seq<GameRecord>, b: seq<GameRecord>, name: string, f: Field)
    requires name in Names(players)
    ensures var ab, ba := HistoricalStatsOf(players, a + b), HistoricalStatsOf(players, b + a);
      name in ab && name in ba && FieldOf(ab[name], f) == FieldOf(ba[name], f)
  {
    HistoricalStatsClosedForm(players, a + b, name, f);
    HistoricalStatsClosedForm(players, b + a, name, f);
    GameSumAppend(a, b, name, f);
    GameSumAppend(b, a, name, f);
  }
}
