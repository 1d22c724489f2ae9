/**
 * The season totals table of src/components/CumulativeStats.jsx
 * (calculateCumulativeStats): one row per name that appears in the batting
 * order of a saved game, with the innings, games, batting slots and fielding
 * positions summed over the history, and the rows in name order.
 */
module Cumulative {
  import opened Wrappers
  import opened Records
  import opened Tallies
  import History
  import Rotation
  import Positions
  import IndexSort

  // ---------------------------------------------------------------------
  // Name order
  // ---------------------------------------------------------------------

  /** Code-unit lexicographic order: a is a prefix of b, or is smaller at the first difference. */
  predicate NameBelow(a: string, b: string)
  {
    a == [] || (b != [] && (a[0] < b[0] || (a[0] == b[0] && NameBelow(a[1..], b[1..]))))
  }

  lemma {:induction false} NameBelowTotal(a: string, b: string)
    ensures NameBelow(a, b) || NameBelow(b, a)
  {
    if a != [] && b != [] && a[0] == b[0] {
      NameBelowTotal(a[1..], b[1..]);
    }
  }

  lemma {:induction false} NameBelowAntisymmetric(a: string, b: string)
    requires NameBelow(a, b) && NameBelow(b, a)
    ensures a == b
  {
    if a != [] && b != [] {
      NameBelowAntisymmetric(a[1..], b[1..]);
      assert a == [a[0]] + a[1..] && b == [b[0]] + b[1..];
    }
  }

  lemma {:induction false} NameBelowTransitive(a: string, b: string, c: string)
    requires NameBelow(a, b) && NameBelow(b, c)
    ensures NameBelow(a, c)
  {
    if a != [] && b != [] && c != [] && a[0] == b[0] && b[0] == c[0] {
      NameBelowTransitive(a[1..], b[1..], c[1..]);
    }
  }

  // ---------------------------------------------------------------------
  // Accumulation
  // ---------------------------------------------------------------------

  /**
   * One player's running totals: the name, the jersey number, the same
   * counters the generator's history keeps (innings, games, batting-slot
   * counts), and a count per fielding position name.
   */
  datatype PlayerTotals = PlayerTotals(name: string, number: string, stat: History.HistStat, fieldingPositions: Tally<string>)

  /** The accumulator: totals by name, and the names in the order they were first seen. */
  datatype Acc = Acc(stats: map<string, PlayerTotals>, names: seq<string>)

  const Empty := Acc(map[], [])

  /** A string field is truthy when present and not empty. */
  predicate Truthy(o: Option<string>)
  {
    o.Some? && o.value != ""
  }

  /**
   * One batting-order row: the name's totals are created on first sight
   * (with the row's number or ""), then bumped by the row, and a truthy
   * number replaces the stored one.
   */
  function AddEntry(a: Acc, e: HistoryEntry): Acc
  {
    var isNew := e.name !in a.stats;
    var base := if isNew then PlayerTotals(e.name, if Truthy(e.number) then e.number.value else "", History.ZeroStat, [])
                else a.stats[e.name];
    var bumped := base.(stat := History.Bump(base.stat, e));
    var t := if Truthy(e.number) then bumped.(number := e.number.value) else bumped;
    Acc(a.stats[e.name := t], if isNew then a.names + [e.name] else a.names)
  }

  function AddEntries(a: Acc, es: seq<HistoryEntry>): Acc
  {
    if es == [] then a else AddEntry(AddEntries(a, es[..|es| - 1]), es[|es| - 1])
  }

  /** One fielding count for a name already in the table; other names are ignored. */
  function CountField(a: Acc, name: string, position: string): Acc
  {
    if name in a.stats then
      var t := a.stats[name];
      a.(stats := a.stats[name := t.(fieldingPositions := Increment(t.fieldingPositions, position))])
    else a
  }

  function AddBench(a: Acc, members: seq<string>): Acc
  {
    if members == [] then a
    else CountField(AddBench(a, members[..|members| - 1]), members[|members| - 1], Positions.BenchName)
  }

  /**
   * One entry of a saved inning: under "Bench" a list counts each member
   * once; under any other key a single named player counts once. Other
   * shapes count nothing.
   */
  function AddPosition(a: Acc, key: string, v: InningEntry): Acc
  {
    if key == Positions.BenchName then
      if v.PlayerList? then AddBench(a, v.members) else a
    else if v.PlayerRef? && v.player != "" then CountField(a, v.player, key)
    else a
  }

  function AddInning(a: Acc, inning: Inning): Acc
  {
    if inning == [] then a
    else
      var last := inning[|inning| - 1];
      AddPosition(AddInning(a, inning[..|inning| - 1]), last.0, last.1)
  }

  function AddInnings(a: Acc, innings: seq<Inning>): Acc
  {
    if innings == [] then a else AddInning(AddInnings(a, innings[..|innings| - 1]), innings[|innings| - 1])
  }

  /** The innings of a saved game, none when absent. */
  function InningsOf(g: GameRecord): seq<Inning>
  {
    if g.lineup.Some? && g.lineup.value.innings.Some? then g.lineup.value.innings.value else []
  }

  /** A game without a lineup or a batting order is skipped; otherwise its rows, then its innings. */
  function AddGame(a: Acc, g: GameRecord): Acc
  {
    match OrderOf(g)
    case None => a
    case Some(es) => AddInnings(AddEntries(a, es), InningsOf(g))
  }

  function AddGames(a: Acc, games: seq<GameRecord>): Acc
  {
    if games == [] then a else AddGame(AddGames(a, games[..|games| - 1]), games[|games| - 1])
  }

  /** The names seen so far are distinct, exactly the table's keys, and each row carries its own name. */
  ghost predicate Valid(a: Acc)
  {
    && (forall i, j :: 0 <= i < j < |a.names| ==> a.names[i] != a.names[j])
    && (forall n :: n in a.stats <==> n in a.names)
    && (forall n :: n in a.stats ==> a.stats[n].name == n)
  }

  // ---------------------------------------------------------------------
  // The rows
  // ---------------------------------------------------------------------

  /** A row of the table: the totals and the average batting slot (None is the source's '-'). */
  datatype Row = Row(totals: PlayerTotals, avgBattingPosition: Option<real>)

  /** Mean slot over the games that recorded one. */
  function Average(t: Tally<int>): Option<real>
  {
    var count := Rotation.CountSum(t);
    if count > 0 then Some(Rotation.WeightSum(t) as real / count as real) else None
  }

  function RowOf(t: PlayerTotals): Row
  {
    Row(t, Average(t.stat.battingPositions))
  }

  predicate RowBelow(r: Row, s: Row)
  {
    NameBelow(r.totals.name, s.totals.name)
  }

  predicate RowsSorted(rows: seq<Row>)
  {
    forall i, j :: 0 <= i < j < |rows| ==> RowBelow(rows[i], rows[j])
  }

  function InsertRow(r: Row, rows: seq<Row>): (res: seq<Row>)
    ensures multiset(res) == multiset(rows) + multiset{r}
  {
    if rows == [] || RowBelow(r, rows[0]) then [r] + rows
    else
      assert rows == [rows[0]] + rows[1..];
      [rows[0]] + InsertRow(r, rows[1..])
  }

  /** A row below the first of sorted rows is below all of them. */
  lemma BelowAll(r: Row, rows: seq<Row>)
    requires RowsSorted(rows) && rows != [] && RowBelow(r, rows[0])
    ensures forall j :: 0 <= j < |rows| ==> RowBelow(r, rows[j])
  {
    forall j | 0 < j < |rows|
      ensures RowBelow(r, rows[j])
    {
      NameBelowTransitive(r.totals.name, rows[0].totals.name, rows[j].totals.name);
    }
  }

  /** Every element of a sequence with the multiset of rows + {r} is r or one of rows. */
  lemma FromEither(r: Row, rows: seq<Row>, res: seq<Row>, j: nat)
    requires multiset(res) == multiset(rows) + multiset{r} && j < |res|
    ensures res[j] == r || res[j] in rows
  {
    assert res[j] in multiset(res);
  }

  lemma {:induction false} InsertRowSorted(r: Row, rows: seq<Row>)
    requires RowsSorted(rows)
    ensures RowsSorted(InsertRow(r, rows))
  {
    if rows == [] {
    } else if RowBelow(r, rows[0]) {
      BelowAll(r, rows);
    } else {
      var tail := rows[1..];
      assert RowsSorted(tail);
      InsertRowSorted(r, tail);
      var rest := InsertRow(r, tail);
      NameBelowTotal(r.totals.name, rows[0].totals.name);
      forall j | 0 <= j < |rest|
        ensures RowBelow(rows[0], rest[j])
      {
        FromEither(r, tail, rest, j);
        if rest[j] != r {
          var m :| 0 <= m < |tail| && tail[m] == rest[j];
          assert rows[m + 1] == rest[j];
        }
      }
      assert InsertRow(r, rows) == [rows[0]] + rest;
    }
  }

  /** The rows in name order: a sorted rearrangement. */
  function SortByName(rows: seq<Row>): (res: seq<Row>)
    ensures RowsSorted(res) && multiset(res) == multiset(rows)
  {
    if rows == [] then []
    else
      assert rows == [rows[0]] + rows[1..];
      var rest := SortByName(rows[1..]);
      InsertRowSorted(rows[0], rest);
      InsertRow(rows[0], rest)
  }

  /** The table's rows, first-seen order, then sorted by name. */
  function Rows(a: Acc): seq<Row>
    requires Valid(a)
  {
    SortByName(FirstSeenRows(a))
  }

  function CumulativeOf(games: seq<GameRecord>): seq<Row>
  {
    GamesValid(Empty, games);
    Rows(AddGames(Empty, games))
  }

  // ---------------------------------------------------------------------
  // The source's loops
  // ---------------------------------------------------------------------

  method AddEntriesLoop(a: Acc, es: seq<HistoryEntry>) returns (r: Acc)
    ensures r == AddEntries(a, es)
  {
    r := a;
    var i := 0;
    while i < |es|
      invariant 0 <= i <= |es|
      invariant r == AddEntries(a, es[..i])
    {
      assert es[..i + 1][..i] == es[..i];
      var e := es[i];
      if e.name !in r.stats {
        var number := if Truthy(e.number) then e.number.value else "";
        r := Acc(r.stats[e.name := PlayerTotals(e.name, number, History.ZeroStat, [])], r.names + [e.name]);
      }
      var t := r.stats[e.name];
      t := t.(stat := History.Bump(t.stat, e));
      if Truthy(e.number) {
        t := t.(number := e.number.value);
      }
      r := r.(stats := r.stats[e.name := t]);
      i := i + 1;
    }
    assert es[..i] == es;
  }

  method AddInningLoop(a: Acc, inning: Inning) returns (r: Acc)
    ensures r == AddInning(a, inning)
  {
    r := a;
    var i := 0;
    while i < |inning|
      invariant 0 <= i <= |inning|
      invariant r == AddInning(a, inning[..i])
    {
      assert inning[..i + 1][..i] == inning[..i];
      var (key, v) := inning[i];
      if key == Positions.BenchName {
        if v.PlayerList? {
          var before := r;
          var k := 0;
          while k < |v.members|
            invariant 0 <= k <= |v.members|
            invariant r == AddBench(before, v.members[..k])
          {
            assert v.members[..k + 1][..k] == v.members[..k];
            r := CountField(r, v.members[k], key);
            k := k + 1;
          }
          assert v.members[..k] == v.members;
        }
      } else if v.PlayerRef? && v.player != "" {
        r := CountField(r, v.player, key);
      }
      i := i + 1;
    }
    assert inning[..i] == inning;
  }

  /** Average of one tally, by the source's loop over its entries. */
  method AverageLoop(t: Tally<int>) returns (avg: Option<real>)
    ensures avg == Average(t)
  {
    var weight, games := 0, 0;
    var i := 0;
    while i < |t|
      invariant 0 <= i <= |t|
      invariant weight == Rotation.WeightSum(t[..i]) && games == Rotation.CountSum(t[..i])
    {
      assert t[..i + 1][..i] == t[..i];
      weight := weight + t[i].0 * t[i].1;
      games := games + t[i].1;
      i := i + 1;
    }
    assert t[..i] == t;
    avg := if games > 0 then Some(weight as real / games as real) else None;
  }

  /** One saved game: skipped without a batting order, else its rows and then its innings. */
  method AddGameLoop(a: Acc, game: GameRecord) returns (r: Acc)
    ensures r == AddGame(a, game)
  {
    r := a;
    if game.lineup.Some? && game.lineup.value.battingOrder.Some? {
      r := AddEntriesLoop(r, game.lineup.value.battingOrder.value);
      var innings := InningsOf(game);
      var before := r;
      var k := 0;
      while k < |innings|
        invariant 0 <= k <= |innings|
        invariant r == AddInnings(before, innings[..k])
      {
        assert innings[..k + 1][..k] == innings[..k];
        r := AddInningLoop(r, innings[k]);
        k := k + 1;
      }
      assert innings[..k] == innings;
    }
  }

  method CalculateCumulativeStats(gameHistory: seq<GameRecord>) returns (rows: seq<Row>)
    ensures rows == CumulativeOf(gameHistory)
  {
    var a := Empty;
    var g := 0;
    while g < |gameHistory|
      invariant 0 <= g <= |gameHistory|
      invariant a == AddGames(Empty, gameHistory[..g])
    {
      assert gameHistory[..g + 1][..g] == gameHistory[..g];
      a := AddGameLoop(a, gameHistory[g]);
      g := g + 1;
    }
    assert gameHistory[..g] == gameHistory;
    GamesValid(Empty, gameHistory);
    var values: seq<Row> := [];
    var i := 0;
    while i < |a.names|
      invariant 0 <= i <= |a.names|
      invariant |values| == i
      invariant forall j :: 0 <= j < i ==> values[j] == RowOf(a.stats[a.names[j]])
    {
      var t := a.stats[a.names[i]];
      var avg := AverageLoop(t.stat.battingPositions);
      values := values + [Row(t, avg)];
      i := i + 1;
    }
    assert values == FirstSeenRows(a);
    rows := SortByName(values);
  }

  // ---------------------------------------------------------------------
  // Invariants of the accumulation
  // ---------------------------------------------------------------------

  lemma CountFieldKeeps(a: Acc, name: string, position: string)
    ensures CountField(a, name, position).names == a.names
    ensures CountField(a, name, position).stats.Keys == a.stats.Keys
    ensures forall n :: n in a.stats ==>
      var t := CountField(a, name, position).stats[n];
      t.name == a.stats[n].name && t.number == a.stats[n].number && t.stat == a.stats[n].stat
  {
  }

  /** Fielding counts change no key, no name, no number and no counter of the batting rows. */
  ghost predicate SameRows(a: Acc, b: Acc)
  {
    && b.names == a.names && b.stats.Keys == a.stats.Keys
    && forall n :: n in a.stats ==>
      b.stats[n].name == a.stats[n].name && b.stats[n].number == a.stats[n].number && b.stats[n].stat == a.stats[n].stat
  }

  lemma {:induction false} BenchKeeps(a: Acc, members: seq<string>)
    ensures SameRows(a, AddBench(a, members))
  {
    if members != [] {
      BenchKeeps(a, members[..|members| - 1]);
      CountFieldKeeps(AddBench(a, members[..|members| - 1]), members[|members| - 1], Positions.BenchName);
    }
  }

  lemma PositionKeeps(a: Acc, key: string, v: InningEntry)
    ensures SameRows(a, AddPosition(a, key, v))
  {
    if key == Positions.BenchName {
      if v.PlayerList? {
        BenchKeeps(a, v.members);
      }
    } else if v.PlayerRef? && v.player != "" {
      CountFieldKeeps(a, v.player, key);
    }
  }

  lemma {:induction false} InningKeeps(a: Acc, inning: Inning)
    ensures SameRows(a, AddInning(a, inning))
  {
    if inning != [] {
      var last := inning[|inning| - 1];
      InningKeeps(a, inning[..|inning| - 1]);
      PositionKeeps(AddInning(a, inning[..|inning| - 1]), last.0, last.1);
    }
  }

  lemma {:induction false} InningsKeep(a: Acc, innings: seq<Inning>)
    ensures SameRows(a, AddInnings(a, innings))
  {
    if innings != [] {
      InningsKeep(a, innings[..|innings| - 1]);
      InningKeeps(AddInnings(a, innings[..|innings| - 1]), innings[|innings| - 1]);
    }
  }

  lemma SameRowsValid(a: Acc, b: Acc)
    requires Valid(a) && SameRows(a, b)
    ensures Valid(b)
  {
  }

  lemma {:induction false} EntriesValid(a: Acc, es: seq<HistoryEntry>)
    requires Valid(a)
    ensures Valid(AddEntries(a, es))
  {
    if es != [] {
      EntriesValid(a, es[..|es| - 1]);
    }
  }

  /** The table stays valid over any history. */
  lemma {:induction false} GamesValid(a: Acc, games: seq<GameRecord>)
    requires Valid(a)
    ensures Valid(AddGames(a, games))
  {
    if games != [] {
      var prev := AddGames(a, games[..|games| - 1]);
      GamesValid(a, games[..|games| - 1]);
      var g := games[|games| - 1];
      match OrderOf(g)
      case None =>
      case Some(es) =>
        EntriesValid(prev, es);
        InningsKeep(AddEntries(prev, es), InningsOf(g));
        SameRowsValid(AddEntries(prev, es), AddGame(prev, g));
    }
  }

  // ---------------------------------------------------------------------
  // Properties of the table
  // ---------------------------------------------------------------------

  /** An empty history, or one whose games carry no batting order, gives an empty table. */
  lemma NoRowsWithoutBattingOrders(games: seq<GameRecord>)
    requires forall g :: 0 <= g < |games| ==> OrderOf(games[g]).None?
    ensures CumulativeOf(games) == []
  {
    NoOrdersEmpty(games);
  }

  lemma {:induction false} NoOrdersEmpty(games: seq<GameRecord>)
    requires forall g :: 0 <= g < |games| ==> OrderOf(games[g]).None?
    ensures AddGames(Empty, games) == Empty
  {
    if games != [] {
      NoOrdersEmpty(games[..|games| - 1]);
    }
  }

  /** The batting-order rows of a game, none when it has no batting order. */
  function OrderRows(g: GameRecord): seq<HistoryEntry>
  {
    if OrderOf(g).Some? then OrderOf(g).value else []
  }

  function RowNames(es: seq<HistoryEntry>): set<string>
  {
    set i | 0 <= i < |es| :: es[i].name
  }

  /** The names in the batting orders of the games that have one. */
  function SeenNames(games: seq<GameRecord>): set<string>
  {
    if games == [] then {} else SeenNames(games[..|games| - 1]) + RowNames(OrderRows(games[|games| - 1]))
  }

  lemma {:induction false} EntriesKeys(a: Acc, es: seq<HistoryEntry>)
    ensures AddEntries(a, es).stats.Keys == a.stats.Keys + RowNames(es)
  {
    if es != [] {
      var pre := es[..|es| - 1];
      EntriesKeys(a, pre);
      assert RowNames(es) == RowNames(pre) + {es[|es| - 1].name};
    }
  }

  lemma {:induction false} GamesKeys(games: seq<GameRecord>)
    ensures AddGames(Empty, games).stats.Keys == SeenNames(games)
  {
    if games != [] {
      var prev := AddGames(Empty, games[..|games| - 1]);
      GamesKeys(games[..|games| - 1]);
      var g := games[|games| - 1];
      match OrderOf(g)
      case None =>
      case Some(es) =>
        EntriesKeys(prev, es);
        InningsKeep(AddEntries(prev, es), InningsOf(g));
    }
  }

  /** The first-seen rows, one per name of the table. */
  function FirstSeenRows(a: Acc): seq<Row>
    requires Valid(a)
  {
    seq(|a.names|, i requires 0 <= i < |a.names| => RowOf(a.stats[a.names[i]]))
  }

  /** Each row of a rearrangement of the first-seen rows is the row of some name of the table. */
  lemma RowFromName(a: Acc, rows: seq<Row>, i: nat) returns (k: nat)
    requires Valid(a) && multiset(rows) == multiset(FirstSeenRows(a)) && i < |rows|
    ensures k < |a.names| && rows[i] == RowOf(a.stats[a.names[k]]) && rows[i].totals.name == a.names[k]
  {
    var values := FirstSeenRows(a);
    assert rows[i] in multiset(values);
    k :| 0 <= k < |values| && values[k] == rows[i];
  }

  /** Each name of the table has its row in a rearrangement of the first-seen rows. */
  lemma NameHasRow(a: Acc, rows: seq<Row>, k: nat) returns (i: nat)
    requires Valid(a) && multiset(rows) == multiset(FirstSeenRows(a)) && k < |a.names|
    ensures i < |rows| && rows[i].totals.name == a.names[k]
  {
    var values := FirstSeenRows(a);
    assert values[k] in multiset(rows);
    i :| 0 <= i < |rows| && rows[i] == values[k];
  }

  /** Rows built from distinct names keep distinct names after sorting. */
  lemma DistinctNames(a: Acc, rows: seq<Row>)
    requires Valid(a) && multiset(rows) == multiset(FirstSeenRows(a))
    ensures forall i, j :: 0 <= i < j < |rows| ==> rows[i].totals.name != rows[j].totals.name
  {
    var values := FirstSeenRows(a);
    assert IndexSort.Distinct(values) by {
      forall x, y | 0 <= x < y < |values|
        ensures values[x] != values[y]
      {
        assert values[x].totals.name == a.names[x];
      }
    }
    IndexSort.SameMultisetDistinct(rows, values);
    forall i, j | 0 <= i < j < |rows|
      ensures rows[i].totals.name != rows[j].totals.name
    {
      var p := RowFromName(a, rows, i);
      var q := RowFromName(a, rows, j);
    }
  }

  /**
   * The table has one row per name that appears in a saved batting order,
   * no other rows, and the rows are in strictly increasing name order.
   */
  lemma RowsAreNames(games: seq<GameRecord>)
    ensures var rows := CumulativeOf(games);
      && (forall n :: n in SeenNames(games) <==> exists i :: 0 <= i < |rows| && rows[i].totals.name == n)
      && (forall i, j :: 0 <= i < j < |rows| ==>
            NameBelow(rows[i].totals.name, rows[j].totals.name) && rows[i].totals.name != rows[j].totals.name)
  {
    var a := AddGames(Empty, games);
    GamesValid(Empty, games);
    GamesKeys(games);
    var rows := SortByName(FirstSeenRows(a));
    assert rows == CumulativeOf(games);
    forall n
      ensures n in SeenNames(games) <==> exists i :: 0 <= i < |rows| && rows[i].totals.name == n
    {
      if n in SeenNames(games) {
        var k :| 0 <= k < |a.names| && a.names[k] == n;
        var i := NameHasRow(a, rows, k);
      }
      if exists i :: 0 <= i < |rows| && rows[i].totals.name == n {
        var i :| 0 <= i < |rows| && rows[i].totals.name == n;
        var k := RowFromName(a, rows, i);
      }
    }
    DistinctNames(a, rows);
  }

  /** A name's counters: its row's, or zero when the name has none. */
  function StatOf(a: Acc, n: string): History.HistStat
  {
    if n in a.stats then a.stats[n].stat else History.ZeroStat
  }

  lemma {:induction false} EntriesSum(a: Acc, es: seq<HistoryEntry>, n: string, f: History.Field)
    ensures History.FieldOf(StatOf(AddEntries(a, es), n), f) == History.FieldOf(StatOf(a, n), f) + History.EntrySum(es, n, f)
  {
    if es != [] {
      var prev := AddEntries(a, es[..|es| - 1]);
      EntriesSum(a, es[..|es| - 1], n, f);
      var e := es[|es| - 1];
      if e.name == n {
        History.BumpField(StatOf(prev, n), e, f);
      }
    }
  }

  /**
   * Every counter of a name's row is the sum over the saved games with a
   * batting order of what that game's rows under the name contribute: the
   * same sums the generator's historical statistics are, so the table and
   * the generator agree on every player's totals.
   */
  lemma {:induction false} TotalsAreGameSums(games: seq<GameRecord>, n: string, f: History.Field)
    ensures History.FieldOf(StatOf(AddGames(Empty, games), n), f) == History.GameSum(games, n, f)
  {
    if games == [] {
      assert History.FieldOf(History.ZeroStat, f) == 0;
    } else {
      var prev := AddGames(Empty, games[..|games| - 1]);
      TotalsAreGameSums(games[..|games| - 1], n, f);
      var g := games[|games| - 1];
      match OrderOf(g)
      case None =>
      case Some(es) =>
        EntriesSum(prev, es, n, f);
        InningsKeep(AddEntries(prev, es), InningsOf(g));
    }
  }

  /** Every row, after sorting, is the row of its own name. */
  lemma RowTotals(games: seq<GameRecord>, i: nat, f: History.Field)
    requires i < |CumulativeOf(games)|
    ensures var r := CumulativeOf(games)[i];
      && History.FieldOf(r.totals.stat, f) == History.GameSum(games, r.totals.name, f)
      && r.avgBattingPosition == Average(r.totals.stat.battingPositions)
  {
    var a := AddGames(Empty, games);
    GamesValid(Empty, games);
    var rows := SortByName(FirstSeenRows(a));
    assert rows == CumulativeOf(games);
    var k := RowFromName(a, rows, i);
    TotalsAreGameSums(games, a.names[k], f);
  }

  /** The batting orders of the games that have one, row after row. */
  function AllRows(games: seq<GameRecord>): seq<HistoryEntry>
  {
    if games == [] then [] else AllRows(games[..|games| - 1]) + OrderRows(games[|games| - 1])
  }

  /** The last truthy number among the rows under a name, "" when there is none. */
  function LastNumber(rows: seq<HistoryEntry>, n: string): string
  {
    if rows == [] then ""
    else
      var e := rows[|rows| - 1];
      if e.name == n && Truthy(e.number) then e.number.value else LastNumber(rows[..|rows| - 1], n)
  }

  lemma {:induction false} LastNumberAppend(a: seq<HistoryEntry>, b: seq<HistoryEntry>, n: string)
    ensures LastNumber(a + b, n) == if LastNumber(b, n) != "" then LastNumber(b, n) else LastNumber(a, n)
  {
    if b == [] {
      assert a + b == a;
    } else {
      assert (a + b)[..|a + b| - 1] == a + b[..|b| - 1];
      LastNumberAppend(a, b[..|b| - 1], n);
    }
  }

  /** Over a run of rows, a name's number becomes the last non-empty one among them, or stays. */
  lemma {:induction false} EntriesNumber(a: Acc, es: seq<HistoryEntry>, n: string)
    ensures n in AddEntries(a, es).stats ==>
      AddEntries(a, es).stats[n].number == if LastNumber(es, n) != "" then LastNumber(es, n) else if n in a.stats then a.stats[n].number else ""
    ensures n !in AddEntries(a, es).stats ==> n !in a.stats && LastNumber(es, n) == ""
  {
    if es != [] {
      var pre := es[..|es| - 1];
      var e := es[|es| - 1];
      EntriesNumber(a, pre, n);
      var prev := AddEntries(a, pre);
      assert AddEntries(a, es) == AddEntry(prev, e);
      if e.name == n {
        if !Truthy(e.number) {
          assert LastNumber(es, n) == LastNumber(pre, n);
        }
      } else {
        assert LastNumber(es, n) == LastNumber(pre, n);
        assert AddEntry(prev, e).stats.Keys == prev.stats.Keys + {e.name};
      }
    }
  }

  /** A row's number is the last non-empty number recorded under its name, "" when there is none. */
  lemma {:induction false} NumberIsLastRecorded(games: seq<GameRecord>, n: string)
    ensures var a := AddGames(Empty, games);
      && (n in a.stats ==> a.stats[n].number == LastNumber(AllRows(games), n))
      && (n !in a.stats ==> LastNumber(AllRows(games), n) == "")
  {
    if games != [] {
      var pre := games[..|games| - 1];
      var prev := AddGames(Empty, pre);
      NumberIsLastRecorded(pre, n);
      var g := games[|games| - 1];
      LastNumberAppend(AllRows(pre), OrderRows(g), n);
      if OrderOf(g).Some? {
        var es := OrderOf(g).value;
        EntriesNumber(prev, es, n);
        InningsKeep(AddEntries(prev, es), InningsOf(g));
      } else {
        assert LastNumber([], n) == "";
      }
    }
  }

  /** With every recorded slot between lo and hi, the average slot is between lo and hi too. */
  lemma AverageBounds(t: Tally<int>, lo: int, hi: int)
    requires forall i :: 0 <= i < |t| ==> lo <= t[i].0 <= hi
    requires Rotation.CountSum(t) > 0
    ensures Average(t).Some? && lo as real <= Average(t).value <= hi as real
  {
    WeightBounds(t, lo, hi);
    var c := Rotation.CountSum(t);
    var w := Rotation.WeightSum(t);
    DivBounds(w, c, lo);
    DivBounds(w, c, hi);
  }

  /** For c > 0, w / c compares with v as w compares with v * c. */
  lemma DivBounds(w: int, c: int, v: int)
    requires c > 0
    ensures v * c <= w ==> v as real <= w as real / c as real
    ensures w <= v * c ==> w as real / c as real <= v as real
  {
    var q := w as real / c as real;
    assert q * c as real == w as real;
    assert (v * c) as real == v as real * c as real;
    if v as real > q {
      assert v as real * c as real > q * c as real;
    }
    if v as real < q {
      assert v as real * c as real < q * c as real;
    }
  }

  lemma {:induction false} WeightBounds(t: Tally<int>, lo: int, hi: int)
    requires forall i :: 0 <= i < |t| ==> lo <= t[i].0 <= hi
    ensures lo * Rotation.CountSum(t) <= Rotation.WeightSum(t) <= hi * Rotation.CountSum(t)
  {
    if t != [] {
      var last := t[|t| - 1];
      WeightBounds(t[..|t| - 1], lo, hi);
      assert lo * last.1 <= last.0 * last.1 <= hi * last.1 by {
        MulMono(lo, last.0, last.1);
        MulMono(last.0, hi, last.1);
      }
    }
  }

  lemma MulMono(a: int, b: int, c: nat)
    requires a <= b
    ensures a * c <= b * c
  {
  }

  // ---------------------------------------------------------------------
  // Fielding counts
  // ---------------------------------------------------------------------

  /** A name's count at a position name, 0 when the name has no row. */
  function FieldCount(a: Acc, n: string, pos: string): nat
  {
    if n in a.stats then CountAt(a.stats[n].fieldingPositions, pos) else 0
  }

  /** What one entry of a saved inning counts for a name at a position name. */
  function EntryCount(key: string, v: InningEntry, n: string, pos: string): nat
  {
    if key != pos then 0
    else if key == Positions.BenchName then (if v.PlayerList? then multiset(v.members)[n] else 0)
    else if v.PlayerRef? && v.player == n && n != "" then 1
    else 0
  }

  function InningCount(inning: Inning, n: string, pos: string): nat
  {
    if inning == [] then 0
    else
      var last := inning[|inning| - 1];
      InningCount(inning[..|inning| - 1], n, pos) + EntryCount(last.0, last.1, n, pos)
  }

  function InningsCount(innings: seq<Inning>, n: string, pos: string): nat
  {
    if innings == [] then 0 else InningsCount(innings[..|innings| - 1], n, pos) + InningCount(innings[|innings| - 1], n, pos)
  }

  /**
   * The fielding count the table should hold: the sum, over the saved games
   * with a batting order, of the game's inning entries for the name, where a
   * game counts only once the name has appeared in a batting order of that
   * game or an earlier one.
   */
  function FieldingOf(games: seq<GameRecord>, n: string, pos: string): nat
  {
    if games == [] then 0
    else
      var g := games[|games| - 1];
      FieldingOf(games[..|games| - 1], n, pos)
        + if OrderOf(g).Some? && n in SeenNames(games) then InningsCount(InningsOf(g), n, pos) else 0
  }

  lemma CountFieldCount(a: Acc, name: string, position: string, n: string, pos: string)
    ensures FieldCount(CountField(a, name, position), n, pos)
      == FieldCount(a, n, pos) + if name == n && position == pos && n in a.stats then 1 else 0
  {
    if name in a.stats && name == n {
      IncrementCount(a.stats[n].fieldingPositions, position, pos);
    }
  }

  lemma {:induction false} BenchCount(a: Acc, members: seq<string>, n: string, pos: string)
    ensures FieldCount(AddBench(a, members), n, pos)
      == FieldCount(a, n, pos) + if n in a.stats && pos == Positions.BenchName then multiset(members)[n] else 0
  {
    if members != [] {
      var pre := members[..|members| - 1];
      var last := members[|members| - 1];
      assert members == pre + [last];
      BenchCount(a, pre, n, pos);
      BenchKeeps(a, pre);
      CountFieldCount(AddBench(a, pre), last, Positions.BenchName, n, pos);
    }
  }

  lemma PositionCount(a: Acc, key: string, v: InningEntry, n: string, pos: string)
    ensures FieldCount(AddPosition(a, key, v), n, pos)
      == FieldCount(a, n, pos) + if n in a.stats then EntryCount(key, v, n, pos) else 0
  {
    if key == Positions.BenchName {
      if v.PlayerList? {
        BenchCount(a, v.members, n, pos);
      }
    } else if v.PlayerRef? && v.player != "" {
      CountFieldCount(a, v.player, key, n, pos);
    }
  }

  lemma {:induction false} InningCountStep(a: Acc, inning: Inning, n: string, pos: string)
    ensures FieldCount(AddInning(a, inning), n, pos)
      == FieldCount(a, n, pos) + if n in a.stats then InningCount(inning, n, pos) else 0
  {
    if inning != [] {
      var pre := inning[..|inning| - 1];
      var last := inning[|inning| - 1];
      InningCountStep(a, pre, n, pos);
      InningKeeps(a, pre);
      PositionCount(AddInning(a, pre), last.0, last.1, n, pos);
    }
  }

  lemma {:induction false} InningsCountStep(a: Acc, innings: seq<Inning>, n: string, pos: string)
    ensures FieldCount(AddInnings(a, innings), n, pos)
      == FieldCount(a, n, pos) + if n in a.stats then InningsCount(innings, n, pos) else 0
  {
    if innings != [] {
      var pre := innings[..|innings| - 1];
      InningsCountStep(a, pre, n, pos);
      InningsKeep(a, pre);
      InningCountStep(AddInnings(a, pre), innings[|innings| - 1], n, pos);
    }
  }

  /** Batting-order rows leave every fielding count as it was. */
  lemma {:induction false} EntriesKeepFielding(a: Acc, es: seq<HistoryEntry>, n: string, pos: string)
    ensures FieldCount(AddEntries(a, es), n, pos) == FieldCount(a, n, pos)
  {
    if es != [] {
      EntriesKeepFielding(a, es[..|es| - 1], n, pos);
    }
  }

  /**
   * Every fielding count of the table is the sum of the matching inning
   * entries over the games in which, or after which, the name has a row:
   * names that never batted get no count, and innings of games before a
   * name's first batting order do not count for it.
   */
  lemma {:induction false} FieldingIsGameSum(games: seq<GameRecord>, n: string, pos: string)
    ensures FieldCount(AddGames(Empty, games), n, pos) == FieldingOf(games, n, pos)
  {
    if games != [] {
      var pre := games[..|games| - 1];
      var prev := AddGames(Empty, pre);
      var g := games[|games| - 1];
      FieldingIsGameSum(pre, n, pos);
      GamesKeys(games);
      if OrderOf(g).Some? {
        var es := OrderOf(g).value;
        EntriesKeepFielding(prev, es, n, pos);
        InningsCountStep(AddEntries(prev, es), InningsOf(g), n, pos);
        InningsKeep(AddEntries(prev, es), InningsOf(g));
      }
    }
  }
}
