/** The records that the scout works on: the rows of the events, fixtures,
    teams and players tables of the fantasy-football API, and the player
    row after the scoring step has added its columns. */
module Records {

  /** A value that may be missing; `None` stands for the NaN a data frame
      holds where a lookup found no key. */
  datatype Option<T> = None | Some(value: T)

  /** A gameweek; `isNext` marks the upcoming one. */
  datatype Event = Event(id: int, isNext: bool)

  /** A match. `event` is the gameweek it belongs to, missing for a fixture
      that has not been scheduled yet. Difficulties are the 1-5 ratings of
      the match for the home side and for the away side. */
  datatype Fixture = Fixture(
    event: Option<int>,
    teamH: int,
    teamA: int,
    teamHDifficulty: int,
    teamADifficulty: int,
    finished: bool)

  datatype Team = Team(id: int, name: string)

  /** A player row as the API gives it, with `form` and `totalPoints`
      already numeric. `nowCost` is in tenths of a million. */
  datatype Player = Player(
    id: int,
    webName: string,
    team: int,
    elementType: int,
    nowCost: int,
    form: real,
    totalPoints: int,
    minutes: int,
    status: string)

  /** A player row with the columns the scoring step adds: the team name,
      the next-three-gameweeks difficulty, the cost in millions, points per
      million, the smart score and the position label. A missing value is
      `None`. */
  datatype ScoredPlayer = ScoredPlayer(
    player: Player,
    teamName: Option<string>,
    nextFdr: Option<real>,
    cost: real,
    value: real,
    smartScore: Option<real>,
    position: Option<string>)

  /** Gameweek used when no event is flagged as next. */
  const DEFAULT_GAMEWEEK: int := 1

  /** Difficulty given to a team with no fixture in the window. */
  const BLANK_GAMEWEEK_FDR: real := 5.0

  /** Status code of an available player. */
  const AVAILABLE_STATUS: string := "a"

  /** A player must have played more than this many minutes. */
  const MIN_MINUTES: int := 450

  /** Position labels by element type. */
  const POSITION_MAP: map<int, string> := map[1 := "GKP", 2 := "DEF", 3 := "MID", 4 := "FWD"]

  /** A dictionary lookup as `Series.map(dict)` performs it. */
  function Lookup<K, V>(m: map<K, V>, k: K): Option<V>
  {
    if k in m then Some(m[k]) else None
  }
}
