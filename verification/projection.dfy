/**
 * The projections the race-data, drivers and races endpoints apply to raw
 * session records: each builds its output list by appending inside a loop,
 * so each is a method whose postcondition relates every output record to
 * the input row it came from.
 */
module Projection {
  import opened Wrappers
  import opened SessionData
  import opened Selection

  /** The compound reported for a lap whose compound cell is missing. */
  const UnknownCompound: string := "UNKNOWN"

  /** The event format that marks pre-season testing in the schedule. */
  const TestingFormat: string := "testing"

  /** An element of the `laps` list of the race-data response. */
  datatype LapEntry = LapEntry(
    driver: string,
    lapNumber: int,
    lapTimeMs: int,
    position: Option<int>,
    compound: string,
    team: string
  )

  /** An element of the `results` list of the race-data response. */
  datatype ResultEntry = ResultEntry(
    driver: string,
    driverName: string,
    team: string,
    position: Option<int>,
    points: int
  )

  /** An element of the `drivers` list of the drivers response. */
  datatype DriverEntry = DriverEntry(code: string, name: string, team: string)

  /** An element of the `races` list of the races response. */
  datatype RaceEntry = RaceEntry(round: int, name: string, country: string, location: string)

  /** A lap survives projection exactly when its lap time is present. */
  predicate HasLapTime(lap: LapRow) {
    lap.lapTime.Some?
  }

  /** A schedule event is listed in the calendar exactly when it is not a testing event. */
  predicate IsRaceEvent(event: EventRow) {
    event.eventFormat != TestingFormat
  }

  /**
   * `e` is the output record for the timed lap `lap`: identity columns copied,
   * the lap time carried over, a missing position kept missing, and a missing
   * compound reported as UNKNOWN while a present one is passed through unchanged.
   */
  predicate ProjectsLap(lap: LapRow, e: LapEntry) {
    && lap.lapTime == Some(e.lapTimeMs)
    && e.driver == lap.driver
    && e.lapNumber == lap.lapNumber
    && e.position == lap.position
    && (lap.compound.None? ==> e.compound == UnknownCompound)
    && (lap.compound.Some? ==> e.compound == lap.compound.value)
    && e.team == lap.team
  }

  /**
   * `e` is the output record for the result row `row`: a missing position stays
   * missing and missing points become 0.
   */
  predicate ProjectsResult(row: ResultRow, e: ResultEntry) {
    && e.driver == row.abbreviation
    && e.driverName == row.fullName
    && e.team == row.teamName
    && e.position == row.position
    && (row.points.None? ==> e.points == 0)
    && (row.points.Some? ==> e.points == row.points.value)
  }

  /** `r` is the calendar entry of the schedule event `event`. */
  predicate ListsEvent(event: EventRow, r: RaceEntry) {
    && r.round == event.roundNumber
    && r.name == event.eventName
    && r.country == event.country
    && r.location == event.location
  }

  /**
   * The lap list of the race-data response: one entry per lap with a lap time,
   * in lap-table order; laps without a lap time are dropped.
   */
  method ProjectLaps(laps: seq<LapRow>) returns (entries: seq<LapEntry>)
    ensures |entries| == |KeptIndices(laps, HasLapTime)|
    ensures forall k :: 0 <= k < |entries| ==> ProjectsLap(laps[KeptIndices(laps, HasLapTime)[k]], entries[k])
  {
    entries := [];
    var i := 0;
    while i < |laps|
      invariant 0 <= i <= |laps|
      invariant |entries| == |KeptIndices(laps[..i], HasLapTime)|
      invariant forall k :: 0 <= k < |entries| ==> ProjectsLap(laps[KeptIndices(laps[..i], HasLapTime)[k]], entries[k])
    {
      var lap := laps[i];
      assert laps[..i + 1][..i] == laps[..i];
      if lap.lapTime.Some? {
        entries := entries + [LapEntry(lap.driver, lap.lapNumber, lap.lapTime.value, lap.position,
                                       lap.compound.GetOr(UnknownCompound), lap.team)];
      }
      i := i + 1;
    }
    assert laps[..|laps|] == laps;
  }

  /** The result list of the race-data response: one entry per result row, in order. */
  method ProjectResults(rows: seq<ResultRow>) returns (entries: seq<ResultEntry>)
    ensures |entries| == |rows|
    ensures forall k :: 0 <= k < |rows| ==> ProjectsResult(rows[k], entries[k])
  {
    entries := [];
    var i := 0;
    while i < |rows|
      invariant 0 <= i <= |rows|
      invariant |entries| == i
      invariant forall k :: 0 <= k < i ==> ProjectsResult(rows[k], entries[k])
    {
      var row := rows[i];
      entries := entries + [ResultEntry(row.abbreviation, row.fullName, row.teamName, row.position,
                                        row.points.GetOr(0))];
      i := i + 1;
    }
  }

  /** The drivers response: one roster entry per result row, in order, with code, name and team copied. */
  method DriverRoster(rows: seq<ResultRow>) returns (drivers: seq<DriverEntry>)
    ensures |drivers| == |rows|
    ensures forall k :: 0 <= k < |rows| ==>
      drivers[k].code == rows[k].abbreviation && drivers[k].name == rows[k].fullName && drivers[k].team == rows[k].teamName
  {
    drivers := [];
    var i := 0;
    while i < |rows|
      invariant 0 <= i <= |rows|
      invariant |drivers| == i
      invariant forall k :: 0 <= k < i ==>
        drivers[k].code == rows[k].abbreviation && drivers[k].name == rows[k].fullName && drivers[k].team == rows[k].teamName
    {
      drivers := drivers + [DriverEntry(rows[i].abbreviation, rows[i].fullName, rows[i].teamName)];
      i := i + 1;
    }
  }

  /**
   * The races response: one entry per schedule event that is not a testing
   * event, in schedule order; testing events are dropped.
   */
  method RaceCalendar(schedule: seq<EventRow>) returns (races: seq<RaceEntry>)
    ensures |races| == |KeptIndices(schedule, IsRaceEvent)|
    ensures forall k :: 0 <= k < |races| ==> ListsEvent(schedule[KeptIndices(schedule, IsRaceEvent)[k]], races[k])
  {
    races := [];
    var i := 0;
    while i < |schedule|
      invariant 0 <= i <= |schedule|
      invariant |races| == |KeptIndices(schedule[..i], IsRaceEvent)|
      invariant forall k :: 0 <= k < |races| ==> ListsEvent(schedule[KeptIndices(schedule[..i], IsRaceEvent)[k]], races[k])
    {
      var event := schedule[i];
      assert schedule[..i + 1][..i] == schedule[..i];
      if event.eventFormat != TestingFormat {
        races := races + [RaceEntry(event.roundNumber, event.eventName, event.country, event.location)];
      }
      i := i + 1;
    }
    assert schedule[..|schedule|] == schedule;
  }

  /** The largest lap number in a non-empty lap table. */
  function MaxLapNumber(laps: seq<LapRow>): (m: int)
    requires |laps| > 0
    ensures forall i :: 0 <= i < |laps| ==> laps[i].lapNumber <= m
    ensures exists i :: 0 <= i < |laps| && laps[i].lapNumber == m
  {
    if |laps| == 1 then laps[0].lapNumber
    else
      var rest := MaxLapNumber(laps[1..]);
      if laps[0].lapNumber >= rest then laps[0].lapNumber else rest
  }

  /**
   * `total_laps`: the largest lap number over the whole lap table, timed or
   * not, and 0 for an empty table.
   */
  function TotalLaps(laps: seq<LapRow>): (n: int)
    ensures |laps| == 0 ==> n == 0
    ensures forall i :: 0 <= i < |laps| ==> laps[i].lapNumber <= n
    ensures |laps| > 0 ==> exists i :: 0 <= i < |laps| && laps[i].lapNumber == n
  {
    if |laps| > 0 then MaxLapNumber(laps) else 0
  }

  /**
   * `total_laps` is at least the lap number of every projected lap: the laps
   * list never mentions a lap beyond the reported total.
   */
  lemma TotalLapsBoundsProjectedLaps(laps: seq<LapRow>, entries: seq<LapEntry>)
    requires |entries| == |KeptIndices(laps, HasLapTime)|
    requires forall k :: 0 <= k < |entries| ==> ProjectsLap(laps[KeptIndices(laps, HasLapTime)[k]], entries[k])
    ensures forall k :: 0 <= k < |entries| ==> entries[k].lapNumber <= TotalLaps(laps)
  {
  }

  /**
   * `total_laps` also counts laps that the lap list drops: when the lap with
   * the largest lap number has no lap time, it is left out of the projection
   * but its lap number is still the total.
   */
  lemma TotalLapsCountsUntimedLaps(laps: seq<LapRow>, j: nat)
    requires j < |laps| && laps[j].lapTime.None?
    requires forall i :: 0 <= i < |laps| ==> laps[i].lapNumber <= laps[j].lapNumber
    ensures TotalLaps(laps) == laps[j].lapNumber
    ensures j !in KeptIndices(laps, HasLapTime)
  {
  }

}
