# Batting order generator: a verified model

This project models the core of a youth-baseball lineup tool in Dafny and
proves properties of that model. The tool takes a roster and a few game
settings and produces three things:

- a batting order that rotates players through the batting slots from game to game;
- an inning-by-inning fielding chart that balances infield, outfield and bench time;
- a season totals table built from the saved games.

It also keeps teams and their game history in the browser's key-value store.

The model covers four source files:

- **`src/utils/lineupGenerator.js`** (modules `Positions`, `History`,
  `Rotation`, `Greedy`, `IndexSort` and `Lineup`). It covers:
  - the position catalogue and each game's position list;
  - the historical statistics folded from the saved games;
  - the batting-order rotation;
  - the greedy per-inning fielding assignment, which updates an array of
    per-player records in place;
  - the whole-game driver.
- **`script.js`, class `BattingOrderGenerator`** (module `Legacy`). This is the
  older generator: a class whose fields the methods update. Its batting order
  is the roster as typed, and each inning runs the same greedy fielding over
  this game's counters only.
- **`src/components/CumulativeStats.jsx`, `calculateCumulativeStats`** (module
  `Cumulative`). It builds the season totals table.
- **`src/utils/storage.js`** (module `Storage`). This is the team and history
  store. Its state is a class with three fields: teams by id, saved games per
  team, and the selected team id.

Both generators share one specification of the inning algorithm, in module
`Greedy`. In each inning:

1. The roster is sorted by fewest active innings, then by smallest
   infield/outfield imbalance. The sort is stable: roster order breaks the
   remaining ties.
2. Each position in turn takes the first still-free player with the least
   total of that position's type.
3. Everyone left over sits.

The two generators differ only in the totals they compare. The newer one adds
the historical totals; the older one does not.

Each imperative operation of the source is a `method`, with the source's loops
and their invariants. Its `ensures` ties the result or the new state to a
specification function. The source's promises are proved as lemmas about those
functions.

The `Lineup` model follows `lineupGenerator.js` in three ways:

- Player records are an `array` of per-player `GameStat` values.
- The inning maps refer to players by their index in that array. In the
  source, the inning map stores the same record objects that the loop later
  mutates, so reading the map at the end sees the final record of each player.
  An index gives exactly that view.
- The position pass and the bench pass update the array in place.

Inputs that come from outside the program are parameters:

- the clock (new ids, ISO timestamps);
- the typed names and settings;
- the saved history as the store returns it.

## Model

| member | source | states |
|---|---|---|
| Positions.GetPositionsForGame | src/utils/lineupGenerator.js:193-226 | The pushed list equals PositionsFor and has length (hasCatcher ? 6 : 5) + max(0, numOutfielders). |
| Positions.PositionsShape | src/utils/lineupGenerator.js:193-226 | The order is Pitcher, then the Catcher exactly when enabled, then the four bases, then the outfield. The first four outfield slots are the catalogue entries; slot i beyond them is "Outfield i+1", numbered 10+i. |
| Positions.PositionNamesDistinct | src/utils/lineupGenerator.js:2-14 | A game's position names are pairwise distinct, none is "Bench", and no number is 0. |
| Positions.PositionTypes | src/utils/lineupGenerator.js:228-243 | Infield entries are typed infield and the four catalogue outfield slots outfield. Synthesized "Outfield N" slots are typed infield, as the identity test in the source does. |
| Positions.NatToStringRoundTrip | src/utils/lineupGenerator.js:221 | The decimal text used in "Outfield N" parses back to N. |
| Positions.NatToStringInjective | src/utils/lineupGenerator.js:221 | Different slot numbers give different "Outfield N" names. |
| History.CalculateHistoricalStats | src/utils/lineupGenerator.js:26-64 | The nested loops compute HistoricalStatsOf, and the keys are exactly the roster's names. |
| History.InitStatsFacts | src/utils/lineupGenerator.js:30-38 | Every roster name starts with zero totals and an empty batting-slot tally. |
| History.HistoricalStatsClosedForm | src/utils/lineupGenerator.js:41-61 | Each counter is a sum over the games that have a batting order of the rows under that name. A missing inning count adds 0. A truthy slot adds one count. Each row adds one game. Names off the roster get no record, and the tallies stay well formed. |
| History.AddGamesFacts | src/utils/lineupGenerator.js:41-61 | Folding games keeps the keys and well-formedness, and adds GameSum to every counter. |
| History.AddEntriesFacts | src/utils/lineupGenerator.js:44-60 | Folding one batting order keeps the keys and adds EntrySum to every counter. |
| History.BumpField | src/utils/lineupGenerator.js:47-58 | One row adds its contribution to exactly the field it belongs to. |
| History.BumpWellFormed | src/utils/lineupGenerator.js:53-56 | Counting a batting slot keeps the slot tally well formed (distinct, non-zero slots, positive counts). |
| History.GameSumAppend | src/utils/lineupGenerator.js:41 | The sums are additive over a history split in two. |
| History.HistoryOrderIrrelevant | src/utils/lineupGenerator.js:41-61 | Swapping two blocks of saved games leaves every statistic unchanged. |
| Tallies.IncrementCount | src/utils/lineupGenerator.js:54-55 | `t[k] = (t[k] \|\| 0) + 1` adds one to k's count and leaves every other count alone. |
| Tallies.IncrementKeys | src/utils/lineupGenerator.js:54-55 | Incrementing adds k to the keys and nothing else. |
| Tallies.IncrementWellFormed | src/utils/lineupGenerator.js:54-55 | Incrementing keeps every key once and every count positive. |
| Rotation.EntryTotals | src/utils/lineupGenerator.js:88-100 | The loop over the tally gives the weighted slot sum, the number of games and the occurrence list. |
| Rotation.DeviationSum | src/utils/lineupGenerator.js:107 | The reduce gives the sum of squared distances from the mean. |
| Rotation.ComputeStanding | src/utils/lineupGenerator.js:74-118 | The per-player scoring computes StandingOf. |
| Rotation.RotateBattingOrder | src/utils/lineupGenerator.js:71-147 | Returns Rotated: an empty roster unchanged, otherwise the roster arranged by the sorted standings. |
| Rotation.RotationIsPermutation | src/utils/lineupGenerator.js:146 | The rotation only reorders: the same players, each exactly as often. |
| Rotation.RotationOrdered | src/utils/lineupGenerator.js:124-144 | For any earlier player x and later player y, one of three holds. Either x's adjusted average (mean + boost) is higher. Or it is equal and x's variance is lower. Or both are equal and x comes first on the roster. |
| Rotation.NoHistoryKeepsOrder | src/utils/lineupGenerator.js:72-85 | With no usable history (the empty roster included) the rotation returns the roster unchanged. |
| Rotation.NoHistoryStanding | src/utils/lineupGenerator.js:77-85 | A player without a record or games gets average (n+1)/2, variance 999 and no boost. |
| Rotation.LastBatterLeads | src/utils/lineupGenerator.js:66-146 | A player who batted last (slot n of n) in every recorded game leads off the next one when every other player has no games or only earlier slots. Their adjusted average n + 3 beats everyone else's. |
| Rotation.SameSlotsReverse | src/utils/lineupGenerator.js:66-146 | When every player has always batted in the slot they hold on the roster, as after one game with this roster, the rotation reverses the order. |
| Rotation.SingleSlotStanding | src/utils/lineupGenerator.js:102-128 | A player who always batted in slot v has average v, variance 0 and boost 3. |
| Rotation.VarianceNonNegative | src/utils/lineupGenerator.js:105-110 | The variance is never negative. |
| Rotation.OccurrencesLength | src/utils/lineupGenerator.js:97-99 | The occurrence list has one entry per recorded game. |
| IndexSort.SortedOrder | src/utils/lineupGenerator.js:124-144 | The stable sort gives every roster index once, each strictly before the next by the comparator, with roster order as the final tie-break. |
| IndexSort.SortedUnique | src/utils/lineupGenerator.js:124 | Two sorted rearrangements of the same indices are equal, so the sort's output is fully determined. |
| IndexSort.Sort | src/utils/lineupGenerator.js:250 | Insertion sort gives a sorted permutation of its input. |
| IndexSort.ArrangePermutation | src/utils/lineupGenerator.js:146 | Arranging by a permutation keeps the multiset of elements. |
| Greedy.FieldingOrder | src/utils/lineupGenerator.js:250-260 | Every player once, fewest active innings (history included) first, then smallest imbalance, then roster order. |
| Greedy.Scan | src/utils/lineupGenerator.js:271-296 | The scan yields None exactly when every player is taken. Otherwise it yields a free player with the least same-type total, the first among equals. |
| Greedy.ScanLoopFacts | src/utils/lineupGenerator.js:271-296 | The same four facts about the best-so-far recursion, proved by induction. |
| Greedy.ScanAgrees | src/utils/lineupGenerator.js:273 | Tallies that agree on the free players give the same choice. |
| Greedy.PickAt | src/utils/lineupGenerator.js:265-309 | Position j goes to the scan's choice over the players still free after positions 0..j-1. |
| Greedy.PickIsGreedy | src/utils/lineupGenerator.js:265-309 | Position j is empty only when every player is placed. Otherwise it takes a free player of least same-type total, and among equals the one the fielding sort puts first. |
| Greedy.FilledIffPlayersLeft | src/utils/lineupGenerator.js:298-308 | Position j is filled exactly when j is below the roster size. |
| Greedy.InningPartition | src/utils/lineupGenerator.js:262-318 | The placed players and the bench together hold every player exactly once. |
| Greedy.BenchSize | src/utils/lineupGenerator.js:312-318 | min(positions, players) players field and everyone else sits. |
| Greedy.RoleFacts | src/utils/lineupGenerator.js:298-318 | Each player either plays a position or sits, and exactly one of the two. |
| Greedy.TakenDistinct | src/utils/lineupGenerator.js:273-300 | No player is placed twice. |
| Greedy.TakenCount | src/utils/lineupGenerator.js:265-309 | After j positions, min(j, n) players are placed. |
| Greedy.Pigeonhole | src/utils/lineupGenerator.js:273 | Distinct players drawn from the roster: all are placed exactly when as many as the roster. |
| Lineup.FindBest | src/utils/lineupGenerator.js:268-296 | The inner loop over the live records returns the Scan choice. |
| Lineup.BumpFielder | src/utils/lineupGenerator.js:303-307 | The chosen player's infield or outfield counter rises by one. Nothing else changes. |
| Lineup.PlacePosition | src/utils/lineupGenerator.js:266-308 | One position extends the greedy fill, the map and the in-place records by the scan's choice. |
| Lineup.FillPositions | src/utils/lineupGenerator.js:265-309 | The position pass yields the greedy fill, its map and the records advanced for every placed player. |
| Lineup.BenchRest | src/utils/lineupGenerator.js:312-318 | Every player of the sorted order not placed sits, in order, and exactly those players' bench counters rise. |
| Lineup.GenerateInningPositions | src/utils/lineupGenerator.js:245-325 | The in-place inning leaves the records and the map that Step describes. |
| Lineup.ScanFromStart | src/utils/lineupGenerator.js:273-290 | Bumping placed players cannot change later choices, because the scan reads only free players. |
| Lineup.StepOneInning | src/utils/lineupGenerator.js:298-318 | Over one inning, exactly one of each player's three counters rises by one and nothing else changes, historical totals included. |
| Lineup.InningPlacesEveryoneOnce | src/utils/lineupGenerator.js:262-322 | Each key is a position name or "Bench". Each player fields one position or sits, never twice. |
| Lineup.InningBench | src/utils/lineupGenerator.js:320-322 | "Bench" is present exactly when there are more players than positions, and lists the surplus. |
| Lineup.InningOfFacts | src/utils/lineupGenerator.js:299-322 | Filled positions are keyed by name with their player. "Bench" is present exactly when someone sits. |
| Lineup.StartRecords | src/utils/lineupGenerator.js:157-167 | The fresh array holds the initial records in the rotated order. |
| Lineup.PlayOne | src/utils/lineupGenerator.js:183 | One turn of the loop is one more inning of Play. |
| Lineup.PlayInnings | src/utils/lineupGenerator.js:182-184 | The inning loop runs max(0, numInnings) innings over the same records. |
| Lineup.GenerateLineup | src/utils/lineupGenerator.js:149-191 | The driver computes LineupOf. |
| Lineup.LineupShape | src/utils/lineupGenerator.js:157-190 | The batting order is the rotated roster (a permutation of it), with slots 1..n in order. There is one map per inning, and the game's position list is used ('all' expanded). Every player has exactly max(0, numInnings) innings. |
| Lineup.LineupHistory | src/utils/lineupGenerator.js:164-166 | Each record carries the player's historical totals: the sums over the saved games. |
| Lineup.LineupInnings | src/utils/lineupGenerator.js:182-322 | Every inning of the game places each player exactly once. It has "Bench" exactly when the roster outnumbers the positions. |
| Lineup.AllFieldsEveryone | src/utils/lineupGenerator.js:171-177 | With 'all', the position list is at least as long as the roster, so no inning has a bench. |
| Lineup.FirstGame | src/utils/lineupGenerator.js:149-167 | Without saved games the batting order is the roster order and every historical total is zero. |
| Lineup.PlayFacts | src/utils/lineupGenerator.js:182-184 | After n innings every record has n more innings and keeps its player, slot and historical totals. |
| Lineup.PlayInning | src/utils/lineupGenerator.js:182-184 | Inning i is one Step from the records as they stood after i innings. |
| Legacy.Generator.constructor | script.js:24-39 | Names are trimmed, slots are 1..n in roster order, every counter is zero, no innings are held, and the positions are PositionsNeeded. |
| Legacy.TrimFacts | script.js:26 | The trimmed name is the typed one without the leading and trailing white space: what is cut is white space, and the result starts and ends with none. |
| Legacy.TrimIdempotent | script.js:26 | Trimming twice changes nothing more. |
| Legacy.Generator.CalculatePositionsNeeded | script.js:41-67 | The pushes give PositionsNeeded. |
| Legacy.PositionsNeededShape | script.js:41-67 | Length (hasCatcher ? 6 : 5) + min(max(0, numOutfielders), 4). Pitcher is first, the Catcher is present exactly when enabled, names are distinct and none is "Bench". Infield entries come first, then outfield. |
| Legacy.PositionTypeOf | script.js:69-84 | Bench exactly for "Bench", outfield exactly for the four outfield names, infield otherwise. |
| Legacy.Generator.FindBest | script.js:125-149 | The inner loop over the live players returns the Scan choice over this game's counters. |
| Legacy.Generator.BumpFielder | script.js:156-160 | The chosen player's infield or outfield counter rises by one. Nothing else changes. |
| Legacy.Generator.PlacePosition | script.js:121-161 | One position extends the fill, stores the player's name under the position, and bumps that player. |
| Legacy.Generator.FillPositions | script.js:121-162 | The position pass yields the greedy fill, the name map and the advanced players. |
| Legacy.Generator.BenchRest | script.js:165-173 | The leftovers, in sorted order, are benched and their names listed in that order. Exactly their bench counters rise. |
| Legacy.Generator.GenerateInningPositions | script.js:99-176 | The in-place inning leaves the players and the map that Step describes. |
| Legacy.Generator.PlayOne | script.js:88-90 | One turn of the loop appends one more inning of Play. |
| Legacy.Generator.GenerateLineup | script.js:86-97 | After max(0, numInnings) innings, exactly that many maps are appended to the innings already held. The result holds the players twice and the innings. |
| Legacy.StepOneInning | script.js:151-173 | Over one inning, exactly one of each player's counters rises by one. |
| Legacy.InningListsEveryone | script.js:121-175 | The names under the positions and on the bench are, as a multiset, the roster's names. Position j is keyed exactly when a player is left for it. "Bench" is present exactly when the roster outnumbers the positions, and then holds that many more names than there are positions. |
| Legacy.InningNames | script.js:152-170 | Every roster name is listed exactly once, on the field or on the bench. |
| Legacy.FieldPartNames | script.js:152 | The fielders, read in position order, are the placed players' names in placement order. |
| Legacy.PlayFacts | script.js:88-90 | After n innings every player keeps the name and slot and has exactly n more innings. |
| Legacy.PlayListsEveryone | script.js:88-175 | Every inning of a run lists the starting roster's names once each. |
| Legacy.FreshGame | script.js:24-97 | Starting from the constructor's records, max(0, numInnings) innings give trimmed names, slots k+1, counters summing to max(0, numInnings), one map per inning, and every map lists the whole roster once. |
| Cumulative.AddEntriesLoop | src/components/CumulativeStats.jsx:14-44 | The batting-order loop computes AddEntries. |
| Cumulative.AddInningLoop | src/components/CumulativeStats.jsx:50-68 | The loop over one inning's entries computes AddInning. |
| Cumulative.AddGameLoop | src/components/CumulativeStats.jsx:11-71 | A game without a lineup or batting order is skipped. Otherwise its rows, then its innings, are folded in. |
| Cumulative.AverageLoop | src/components/CumulativeStats.jsx:76-86 | The loop gives Σ slot·count / Σ count, or None ('-') when no slot was recorded. |
| Cumulative.CalculateCumulativeStats | src/components/CumulativeStats.jsx:7-93 | The whole function computes CumulativeOf. |
| Cumulative.NoRowsWithoutBattingOrders | src/components/CumulativeStats.jsx:11-12 | An empty history, or one without batting orders, gives an empty table. |
| Cumulative.RowsAreNames | src/components/CumulativeStats.jsx:14-92 | There is one row per name seen in a batting order and no other. The rows are in strictly increasing name order, so names are distinct. |
| Cumulative.GamesKeys | src/components/CumulativeStats.jsx:14-26 | The table's names are exactly those in the saved batting orders. |
| Cumulative.TotalsAreGameSums | src/components/CumulativeStats.jsx:28-38 | Games, innings and batting-slot counts are sums over the rows under the name, with missing counters as 0 and only truthy slots counted. These are the generator's historical sums. |
| Cumulative.RowTotals | src/components/CumulativeStats.jsx:28-91 | After sorting, each row holds its own name's sums and the average of its own slot tally. |
| Cumulative.NumberIsLastRecorded | src/components/CumulativeStats.jsx:18-43 | A row's number is the last non-empty number recorded under its name, or "" when there is none. |
| Cumulative.EntriesNumber | src/components/CumulativeStats.jsx:18-43 | Over a run of rows a name's number becomes the last non-empty one, or stays as it was. |
| Cumulative.FieldingIsGameSum | src/components/CumulativeStats.jsx:47-70 | Every fielding count is the sum of the matching inning entries (each bench member counts once under "Bench"). Only games in which, or after which, the name has a row count. |
| Cumulative.EntriesKeepFielding | src/components/CumulativeStats.jsx:14-44 | Batting-order rows leave every fielding count unchanged. |
| Cumulative.BenchCount | src/components/CumulativeStats.jsx:52-59 | A bench list adds, for a known name, one "Bench" count per occurrence. |
| Cumulative.PositionCount | src/components/CumulativeStats.jsx:52-67 | One inning entry adds its count only for a name already in the table. |
| Cumulative.GamesValid | src/components/CumulativeStats.jsx:14-26 | The first-seen names stay distinct, equal the keys, and each row carries its own name. |
| Cumulative.InningsKeep | src/components/CumulativeStats.jsx:47-70 | Fielding counts add no name and change no number or batting counter. |
| Cumulative.AverageBounds | src/components/CumulativeStats.jsx:79-86 | With every slot between lo and hi, the average is between lo and hi. |
| Cumulative.SortByName | src/components/CumulativeStats.jsx:92 | The sort gives a sorted permutation of the rows. |
| Cumulative.InsertRowSorted | src/components/CumulativeStats.jsx:92 | Inserting into sorted rows keeps them sorted. |
| Cumulative.NameBelowTotal | src/components/CumulativeStats.jsx:92 | The name order is total. |
| Cumulative.NameBelowAntisymmetric | src/components/CumulativeStats.jsx:92 | The name order is antisymmetric. |
| Cumulative.NameBelowTransitive | src/components/CumulativeStats.jsx:92 | The name order is transitive. |
| Storage.Store.constructor | src/utils/storage.js:14-17 | An empty store has no teams, no history and no selection. |
| Storage.Store.GetTeams | src/utils/storage.js:14-17 | Returns the stored teams. |
| Storage.Store.CreateTeam | src/utils/storage.js:19-31 | Stores under the clock's id a team with the given name and players and both timestamps. Returns that id and changes no history or selection. |
| Storage.Store.UpdateTeam | src/utils/storage.js:33-45 | Returns true exactly for a known id. Then the update is merged in; otherwise nothing changes. |
| Storage.Merge | src/utils/storage.js:36-40 | Each of id, name, players and createdAt is the update's value when given and the team's own otherwise. updatedAt is always the new timestamp. |
| Storage.Store.DeleteTeam | src/utils/storage.js:47-61 | The team and its history go. The selection is cleared exactly when it was this team. |
| Storage.Store.GetTeam | src/utils/storage.js:63-66 | Returns the team for a known id and none otherwise. |
| Storage.Store.SetCurrentTeamId | src/utils/storage.js:69-75 | A non-empty id is selected. Absent or empty clears the selection. |
| Storage.Store.GetCurrentTeamId | src/utils/storage.js:77-79 | Returns the selection. |
| Storage.Store.GetCurrentTeam | src/utils/storage.js:81-84 | Returns the selected team when the selection is non-empty and known, and none otherwise. |
| Storage.Store.SaveLineupToHistory | src/utils/storage.js:96-118 | Sets the new record first in this team's list, cut to 20. Other teams' lists, the teams and the selection stay. The record carries the clock's id and date, the lineup, the settings and the name/number projection. |
| Storage.Prepend | src/utils/storage.js:110-114 | The result has length min(n+1, 20), the new record first and the old list after it. |
| Storage.Project | src/utils/storage.js:107 | One {name, number} entry per batting-order row, in order. |
| Storage.SavesKeepMostRecent | src/utils/storage.js:110-114 | Saving games in turn keeps the most recent 20 of all, latest first. |
| Storage.Store.GetTeamGameHistory | src/utils/storage.js:120-123 | Returns the team's list, or [] when it has none. |
| Storage.Store.DeleteGameFromHistory | src/utils/storage.js:125-131 | Removes the games with that id from a team's list. A team without a list is left alone. |
| Storage.WithoutGame | src/utils/storage.js:128 | No kept game has the id, and a game is kept exactly when it was there with another id. |
| Storage.WithoutGameCount | src/utils/storage.js:128 | Exactly as many games are removed as carry the id. |
| Storage.WithoutAbsentGame | src/utils/storage.js:128 | Removing an id no game has changes nothing. |
| Storage.WithoutGameIdempotent | src/utils/storage.js:128 | Removing a game twice is removing it once. |

## Left out

- The React components, `UIController` in `script.js`, the icon and screenshot
  scripts: user interface and image generation, no logic of the core.
- Browser storage and JSON: the store is three in-memory fields. There is no
  serialisation round trip, and no record can be malformed on disk.
- `Date.now()` and ISO timestamps: the new ids and times are parameters of
  `CreateTeam`, `UpdateTeam` and `SaveLineupToHistory`.
- Storage.Store.CreateTeam: the source reads the clock twice for createdAt and
  updatedAt. The model passes one timestamp for both.
- `shuffleArray` (`src/utils/storage.js:134-141`): it depends on `Math.random`.
- `importAllData`/`exportAllData`: their source is not part of this model.
- Rotation.RotationOrdered: the comparator treats differences below 0.001 as
  ties. The model uses exact equality on reals. Averages and variances are
  exact rationals, not floating point.
- Cumulative.AverageLoop: `toFixed(1)` text formatting is not modelled. The
  average is the exact rational, and None stands for '-'.
- Cumulative.RowsAreNames: `localeCompare` collation is replaced by code-unit
  lexicographic order, proved total, antisymmetric and transitive.
- Legacy.TrimFacts: `trim` is modelled over the ASCII white space, the
  no-break space, the line and paragraph separators and the byte-order mark.
  Other Unicode space separators are not included.
- Positions.GetPositionType: the source tests catalogue membership by object
  identity. The model tests by value. Synthesized "Outfield N" positions have
  numbers 14 and up, so both tests decide the same, and those positions are
  typed infield as in the source.
- Rotation.EntryTotals: `parseInt` on the object keys of the slot tally is the
  identity on the integer keys the tally holds. Key order is insertion order.
  JavaScript would list integer-like keys in ascending order instead; the sums
  do not depend on that order.
- Cumulative.AddInningLoop: a saved inning is a sequence of (key, value) pairs
  in `Object.entries` order. Values of other shapes count nothing.
- Storage.Store.SaveLineupToHistory: requires a batting order, because the
  source reads `lineup.battingOrder.map` unconditionally and fails without one.
- Storage.Merge: an update carries only id, name, players and createdAt. The
  object spread in the source copies any key of the update object onto the
  team; other keys are not modelled.
- Quirks of JavaScript values are not modelled:
  - a missing `name` in a history row, which would become the key "undefined";
  - prototype keys such as `constructor`, which exist on every object;
  - non-integer or negative inning counts in saved rows.
- Player identity: a roster entry carries only a name and a number. The
  source copies every field of the player (`id`, `active` and any other)
  into each batting-order record with `...player`. No logic of the core
  reads those fields.
- Legacy.Generator.GenerateLineup: the source returns `this.players` and
  `this.innings` by reference, so a later call also changes a result
  already returned. The model returns value snapshots and does not capture
  that aliasing.
- Lineup.GenerateLineup: inning maps refer to players by index into the final
  record array, not by shared object references. Reading the map at the end
  gives the same view.
