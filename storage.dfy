/**
 * The team and game-history store of src/utils/storage.js, with the
 * browser's key-value storage and its JSON encoding replaced by three
 * fields: the teams by id, the saved games per team id, and the selected
 * team id. Clock readings (the new ids and the timestamps) are parameters.
 */
module Storage {
  import opened Wrappers
  import opened Records

  /** A stored team. */
  datatype Team = Team(id: string, name: string, players: seq<Player>, createdAt: string, updatedAt: string)

  /** The fields an update may carry; an absent field keeps the team's value. */
  datatype TeamUpdate = TeamUpdate(id: Option<string>, name: Option<string>, players: Option<seq<Player>>, createdAt: Option<string>)

  /** A team keeps at most this many saved games. */
  const HistoryLimit: nat := 20

  function Min(a: int, b: int): int
  {
    if a < b then a else b
  }

  function Override<T>(given: Option<T>, kept: T): T
  {
    if given.Some? then given.value else kept
  }

  /** A team with an update spread over it: given fields win, the update time is always new. */
  function Merge(t: Team, u: TeamUpdate, timestamp: string): (r: Team)
    ensures r.updatedAt == timestamp
    ensures u.name.None? ==> r.name == t.name
    ensures u.name.Some? ==> r.name == u.name.value
    ensures u.players.None? ==> r.players == t.players
    ensures u.players.Some? ==> r.players == u.players.value
    ensures u.id.None? ==> r.id == t.id
    ensures u.id.Some? ==> r.id == u.id.value
    ensures u.createdAt.None? ==> r.createdAt == t.createdAt
    ensures u.createdAt.Some? ==> r.createdAt == u.createdAt.value
  {
    Team(Override(u.id, t.id), Override(u.name, t.name), Override(u.players, t.players), Override(u.createdAt, t.createdAt), timestamp)
  }

  /** The new game goes first; the list is then cut to the most recent HistoryLimit games. */
  function Prepend(h: seq<GameRecord>, r: GameRecord): (res: seq<GameRecord>)
    ensures |res| == Min(|h| + 1, HistoryLimit)
    ensures res[0] == r
    ensures forall i :: 1 <= i < |res| ==> res[i] == h[i - 1]
  {
    var all := [r] + h;
    if |all| > HistoryLimit then all[..HistoryLimit] else all
  }

  /** The saved games without those carrying the given id. */
  function WithoutGame(h: seq<GameRecord>, gameId: string): (res: seq<GameRecord>)
    ensures forall i :: 0 <= i < |res| ==> res[i].id != gameId
    ensures forall g :: g in res <==> g in h && g.id != gameId
    ensures |res| <= |h|
  {
    if h == [] then []
    else
      var rest := WithoutGame(h[1..], gameId);
      assert forall g :: g in h <==> g == h[0] || g in h[1..];
      if h[0].id == gameId then rest else [h[0]] + rest
  }

  /** The name and number of each batting-order row, in order. */
  function Project(order: seq<HistoryEntry>): (refs: seq<RosterRef>)
    ensures |refs| == |order|
    ensures forall i :: 0 <= i < |order| ==> refs[i].name == order[i].name && refs[i].number == order[i].number
  {
    seq(|order|, i requires 0 <= i < |order| => RosterRef(order[i].name, order[i].number))
  }

  /** The list of games after saving rs in turn, oldest first. */
  function Saves(h: seq<GameRecord>, rs: seq<GameRecord>): seq<GameRecord>
  {
    if rs == [] then h else Prepend(Saves(h, rs[..|rs| - 1]), rs[|rs| - 1])
  }

  function Reversed<T>(s: seq<T>): (r: seq<T>)
    ensures |r| == |s|
    ensures forall i :: 0 <= i < |s| ==> r[i] == s[|s| - 1 - i]
  {
    if s == [] then [] else [s[|s| - 1]] + Reversed(s[..|s| - 1])
  }

  // ---------------------------------------------------------------------
  // Properties of the history list
  // ---------------------------------------------------------------------

  /**
   * Saving games one after another onto a list within the limit leaves the
   * most recent HistoryLimit games of all, the latest first.
   */
  lemma {:induction false} SavesKeepMostRecent(h: seq<GameRecord>, rs: seq<GameRecord>)
    requires |h| <= HistoryLimit
    ensures Saves(h, rs) == (Reversed(rs) + h)[..Min(|rs| + |h|, HistoryLimit)]
  {
    if rs != [] {
      var pre := rs[..|rs| - 1];
      var r := rs[|rs| - 1];
      SavesKeepMostRecent(h, pre);
      var all := Reversed(rs) + h;
      assert Reversed(rs) == [r] + Reversed(pre);
      assert all == [r] + (Reversed(pre) + h);
      var prev := Saves(h, pre);
      var res := Prepend(prev, r);
      assert |res| == Min(|rs| + |h|, HistoryLimit);
      forall i | 0 <= i < |res|
        ensures res[i] == all[i]
      {
        if i > 0 {
          assert res[i] == prev[i - 1];
        }
      }
    }
  }

  /** Removing an id no saved game has changes nothing. */
  lemma {:induction false} WithoutAbsentGame(h: seq<GameRecord>, gameId: string)
    requires forall i :: 0 <= i < |h| ==> h[i].id != gameId
    ensures WithoutGame(h, gameId) == h
  {
    if h != [] {
      WithoutAbsentGame(h[1..], gameId);
      assert h == [h[0]] + h[1..];
    }
  }

  /** Removing a game twice is removing it once. */
  lemma WithoutGameIdempotent(h: seq<GameRecord>, gameId: string)
    ensures WithoutGame(WithoutGame(h, gameId), gameId) == WithoutGame(h, gameId)
  {
    WithoutAbsentGame(WithoutGame(h, gameId), gameId);
  }

  /** The ids of the saved games, in order. */
  function Ids(h: seq<GameRecord>): (ids: seq<string>)
    ensures |ids| == |h|
  {
    seq(|h|, i requires 0 <= i < |h| => h[i].id)
  }

  /** Removal takes out exactly as many games as carry the id. */
  lemma {:induction false} WithoutGameCount(h: seq<GameRecord>, gameId: string)
    ensures |WithoutGame(h, gameId)| == |h| - multiset(Ids(h))[gameId]
  {
    if h != [] {
      WithoutGameCount(h[1..], gameId);
      assert Ids(h) == [h[0].id] + Ids(h[1..]);
    }
  }

  // ---------------------------------------------------------------------
  // The store
  // ---------------------------------------------------------------------

  class Store {
    /** The teams by id. */
    var teams: map<string, Team>
    /** The saved games of each team id, latest first. */
    var history: map<string, seq<GameRecord>>
    /** The selected team id, absent when none is selected. */
    var currentTeamId: Option<string>

    /** No team's list of saved games exceeds the limit. */
    predicate Valid()
      reads this
    {
      forall t :: t in history ==> |history[t]| <= HistoryLimit
    }

    /** The saved games of a team id, none when the id has no list. */
    function HistoryOf(teamId: string): seq<GameRecord>
      reads this
    {
      if teamId in history then history[teamId] else []
    }

    /** An empty store: no teams, no history, no selection. */
    constructor ()
      ensures Valid()
      ensures teams == map[] && history == map[] && currentTeamId == None
    {
      teams := map[];
      history := map[];
      currentTeamId := None;
    }

    method GetTeams() returns (result: map<string, Team>)
      ensures result == teams
    {
      result := teams;
    }

    /** A new team under the id the clock gives; an entry already under that id is replaced. */
    method CreateTeam(teamName: string, players: seq<Player>, now: string, timestamp: string) returns (teamId: string)
      requires Valid()
      modifies this
      ensures Valid()
      ensures teamId == now
      ensures teams == old(teams)[now := Team(now, teamName, players, timestamp, timestamp)]
      ensures history == old(history) && currentTeamId == old(currentTeamId)
    {
      teamId := now;
      teams := teams[teamId := Team(teamId, teamName, players, timestamp, timestamp)];
    }

    /** A known team gets the update merged in and the answer is true; an unknown id changes nothing. */
    method UpdateTeam(teamId: string, updates: TeamUpdate, timestamp: string) returns (updated: bool)
      requires Valid()
      modifies this
      ensures Valid()
      ensures updated <==> teamId in old(teams)
      ensures updated ==> teams == old(teams)[teamId := Merge(old(teams)[teamId], updates, timestamp)]
      ensures !updated ==> teams == old(teams)
      ensures history == old(history) && currentTeamId == old(currentTeamId)
    {
      if teamId in teams {
        teams := teams[teamId := Merge(teams[teamId], updates, timestamp)];
        return true;
      }
      return false;
    }

    /** The team and its saved games go; the selection is cleared only when it was this team. */
    method DeleteTeam(teamId: string)
      requires Valid()
      modifies this
      ensures Valid()
      ensures teams == old(teams) - {teamId}
      ensures history == old(history) - {teamId}
      ensures currentTeamId == if old(currentTeamId) == Some(teamId) then None else old(currentTeamId)
    {
      teams := teams - {teamId};
      history := history - {teamId};
      if currentTeamId == Some(teamId) {
        SetCurrentTeamId(None);
      }
    }

    method GetTeam(teamId: string) returns (team: Option<Team>)
      ensures team.Some? <==> teamId in teams
      ensures team.Some? ==> team.value == teams[teamId]
    {
      team := if teamId in teams then Some(teams[teamId]) else None;
    }

    /** A non-empty id is selected; an absent or empty one clears the selection. */
    method SetCurrentTeamId(teamId: Option<string>)
      modifies this
      ensures currentTeamId == if teamId.Some? && teamId.value != "" then teamId else None
      ensures teams == old(teams) && history == old(history)
    {
      if teamId.Some? && teamId.value != "" {
        currentTeamId := teamId;
      } else {
        currentTeamId := None;
      }
    }

    method GetCurrentTeamId() returns (teamId: Option<string>)
      ensures teamId == currentTeamId
    {
      teamId := currentTeamId;
    }

    /** The selected team, absent when nothing is selected or the selected id has no team. */
    method GetCurrentTeam() returns (team: Option<Team>)
      ensures team.Some? <==> currentTeamId.Some? && currentTeamId.value != "" && currentTeamId.value in teams
      ensures team.Some? ==> team.value == teams[currentTeamId.value]
    {
      var teamId := GetCurrentTeamId();
      if teamId.Some? && teamId.value != "" {
        team := GetTeam(teamId.value);
      } else {
        team := None;
      }
    }

    /**
     * A saved game under the clock's id and date, with the lineup, the
     * settings and the name and number of each batter, goes first in the
     * team's list, which is then cut to the limit; no other list changes.
     * The source reads the lineup's batting order unconditionally, so one
     * must be present.
     */
    method SaveLineupToHistory(teamId: string, lineup: SavedLineup, settings: Settings, now: string, date: string)
      returns (record: GameRecord)
      requires Valid() && lineup.battingOrder.Some?
      modifies this
      ensures Valid()
      ensures record == GameRecord(now, date, Some(lineup), settings, Project(lineup.battingOrder.value))
      ensures history == old(history)[teamId := Prepend(old(HistoryOf(teamId)), record)]
      ensures teams == old(teams) && currentTeamId == old(currentTeamId)
    {
      if teamId !in history {
        history := history[teamId := []];
      }
      record := GameRecord(now, date, Some(lineup), settings, Project(lineup.battingOrder.value));
      var list := [record] + history[teamId];
      if |list| > HistoryLimit {
        list := list[..HistoryLimit];
      }
      history := history[teamId := list];
    }

    method GetTeamGameHistory(teamId: string) returns (games: seq<GameRecord>)
      ensures games == HistoryOf(teamId)
    {
      games := if teamId in history then history[teamId] else [];
    }

    /** The team's games with the given id are removed; a team without a list is left alone. */
    method DeleteGameFromHistory(teamId: string, gameId: string)
      requires Valid()
      modifies this
      ensures Valid()
      ensures teamId in old(history) ==> history == old(history)[teamId := WithoutGame(old(history)[teamId], gameId)]
      ensures teamId !in old(history) ==> history == old(history)
      ensures teams == old(teams) && currentTeamId == old(currentTeamId)
    {
      if teamId in history {
        history := history[teamId := WithoutGame(history[teamId], gameId)];
      }
    }
  }
}
