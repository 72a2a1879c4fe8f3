/**
 * The raw records a loaded race session exposes: rows of the lap table, rows
 * of the result table, rows of the season schedule and the event metadata.
 * Nullable columns are `Option`s; lap times are integer milliseconds and
 * points are integers.
 */
module SessionData {
  import opened Wrappers

  /** One row of `session.laps`, restricted to the columns the backend reads. */
  datatype LapRow = LapRow(
    driver: string,
    lapNumber: int,
    lapTime: Option<int>,     // milliseconds; missing when the lap was not timed
    position: Option<int>,
    compound: Option<string>,
    team: string
  )

  /** One row of `session.results`. */
  datatype ResultRow = ResultRow(
    abbreviation: string,
    fullName: string,
    teamName: string,
    position: Option<int>,
    points: Option<int>
  )

  /** One row of the season's event schedule. */
  datatype EventRow = EventRow(
    roundNumber: int,
    eventName: string,
    country: string,
    location: string,
    eventFormat: string
  )

  /** The event metadata of a session (`session.event`). */
  datatype EventInfo = EventInfo(eventName: string, country: string, location: string)

  /** A loaded race session. */
  datatype Session = Session(event: EventInfo, laps: seq<LapRow>, results: seq<ResultRow>)

  /** The memoisation key of a session load: the arguments `(year, race_round)`. */
  datatype SessionKey = SessionKey(year: int, raceRound: int)
}
