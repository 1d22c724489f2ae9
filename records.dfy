/**
 * Value types shared by the generator, the statistics and the store: the
 * roster entry, a saved game as it comes back from storage, and the game
 * settings.
 */
module Records {
  import opened Wrappers

  /** A roster entry: the player's name and jersey number. */
  datatype Player = Player(name: string, number: string)

  /**
   * One batting-order row of a saved lineup as it is read back: every field
   * but the name may be absent (older records, hand-edited data).
   */
  datatype HistoryEntry = HistoryEntry(
    name: string,
    number: Option<string>,
    battingOrder: Option<int>,
    infieldInnings: Option<int>,
    outfieldInnings: Option<int>,
    benchInnings: Option<int>)

  /**
   * The value stored under one key of a saved inning: a single player for a
   * field position (an empty name stands for a player object without one), a
   * list of names for the bench, or anything else.
   */
  datatype InningEntry = PlayerRef(player: string) | PlayerList(members: seq<string>) | Missing

  /** A saved inning: its (position name, value) entries in key order. */
  type Inning = seq<(string, InningEntry)>

  /** A saved lineup: batting order and innings, each possibly absent. */
  datatype SavedLineup = SavedLineup(battingOrder: Option<seq<HistoryEntry>>, innings: Option<seq<Inning>>)

  /** How many outfielders a game uses: a number, or enough to field everyone. */
  datatype OutfieldSetting = Count(n: int) | All

  /** The settings stored beside a saved game; storage does not interpret them. */
  datatype Settings = Settings(numInnings: Option<int>, numOutfielders: Option<OutfieldSetting>, hasCatcher: Option<bool>)

  /** The name and number of a player, as a game record lists them. */
  datatype RosterRef = RosterRef(name: string, number: Option<string>)

  /** A saved game. */
  datatype GameRecord = GameRecord(
    id: string,
    date: string,
    lineup: Option<SavedLineup>,
    settings: Settings,
    battingOrder: seq<RosterRef>)

  /** The batting order of a saved game, when the game has one. */
  function OrderOf(g: GameRecord): Option<seq<HistoryEntry>>
  {
    if g.lineup.Some? then g.lineup.value.battingOrder else None
  }

  /** A recorded batting slot counts only when it is present and non-zero (JavaScript truthiness). */
  function BattingSlot(e: HistoryEntry): Option<int>
  {
    if e.battingOrder.Some? && e.battingOrder.value != 0 then e.battingOrder else None
  }

  /** The names on a roster. */
  function Names(players: seq<Player>): set<string>
  {
    set p | p in players :: p.name
  }
}
