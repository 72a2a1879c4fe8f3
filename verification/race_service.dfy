/**
 * The bodies of the race-data and drivers endpoints: resolve the race
 * session through the memo, then project it. A failed load is returned as
 * the error it raised.
 */
module RaceService {
  import opened Wrappers
  import opened SessionData
  import opened Selection
  import opened Projection
  import opened SessionCache

  /** The `race` object of the race-data response. */
  datatype RaceInfo = RaceInfo(name: string, country: string, location: string)

  /** The payload of the race-data response. */
  datatype RaceData = RaceData(race: RaceInfo, laps: seq<LapEntry>, results: seq<ResultEntry>, totalLaps: int)

  /** `data` is the race-data payload of `session`. */
  predicate DescribesSession(session: Session, data: RaceData) {
    && data.race == RaceInfo(session.event.eventName, session.event.country, session.event.location)
    && |data.laps| == |KeptIndices(session.laps, HasLapTime)|
    && (forall k :: 0 <= k < |data.laps| ==> ProjectsLap(session.laps[KeptIndices(session.laps, HasLapTime)[k]], data.laps[k]))
    && |data.results| == |session.results|
    && (forall k :: 0 <= k < |session.results| ==> ProjectsResult(session.results[k], data.results[k]))
    && data.totalLaps == TotalLaps(session.laps)
  }

  /**
   * The race-data payload of a loaded session: event metadata, the timed laps,
   * every result, and a `total_laps` no smaller than any listed lap number.
   */
  method RaceDataOf(session: Session) returns (data: RaceData)
    ensures DescribesSession(session, data)
    ensures forall k :: 0 <= k < |data.laps| ==> data.laps[k].lapNumber <= data.totalLaps
  {
    var laps := ProjectLaps(session.laps);
    var results := ProjectResults(session.results);
    TotalLapsBoundsProjectedLaps(session.laps, laps);
    data := RaceData(RaceInfo(session.event.eventName, session.event.country, session.event.location),
                     laps, results, TotalLaps(session.laps));
  }

  /** The race-data endpoint for `(year, raceRound)`, loading the session through the memo. */
  method GetRaceData(memo: SessionMemo, year: int, raceRound: int, provider: SessionKey -> Result<Session>)
    returns (response: Result<RaceData>)
    requires memo.Valid()
    modifies memo
    ensures memo.Valid()
    ensures memo.State() == Lookup(old(memo.State()), SessionKey(year, raceRound), provider).0
    ensures Lookup(old(memo.State()), SessionKey(year, raceRound), provider).1.Err? ==>
      response == Err(Lookup(old(memo.State()), SessionKey(year, raceRound), provider).1.error)
    ensures Lookup(old(memo.State()), SessionKey(year, raceRound), provider).1.Ok? ==>
      response.Ok? && DescribesSession(Lookup(old(memo.State()), SessionKey(year, raceRound), provider).1.value, response.value)
  {
    var loaded := memo.Get(SessionKey(year, raceRound), provider);
    match loaded
    case Err(message) =>
      response := Err(message);
    case Ok(session) =>
      var data := RaceDataOf(session);
      response := Ok(data);
  }

  /** The drivers endpoint for `(year, raceRound)`, loading the session through the memo. */
  method GetDrivers(memo: SessionMemo, year: int, raceRound: int, provider: SessionKey -> Result<Session>)
    returns (response: Result<seq<DriverEntry>>)
    requires memo.Valid()
    modifies memo
    ensures memo.Valid()
    ensures memo.State() == Lookup(old(memo.State()), SessionKey(year, raceRound), provider).0
    ensures Lookup(old(memo.State()), SessionKey(year, raceRound), provider).1.Err? ==>
      response == Err(Lookup(old(memo.State()), SessionKey(year, raceRound), provider).1.error)
    ensures Lookup(old(memo.State()), SessionKey(year, raceRound), provider).1.Ok? ==>
      var rows := Lookup(old(memo.State()), SessionKey(year, raceRound), provider).1.value.results;
      && response.Ok?
      && |response.value| == |rows|
      && forall k :: 0 <= k < |rows| ==>
           response.value[k] == DriverEntry(rows[k].abbreviation, rows[k].fullName, rows[k].teamName)
  {
    var loaded := memo.Get(SessionKey(year, raceRound), provider);
    match loaded
    case Err(message) =>
      response := Err(message);
    case Ok(session) =>
      var drivers := DriverRoster(session.results);
      response := Ok(drivers);
  }

  /**
   * The race-data and drivers endpoints share the memo: after a successful
   * race-data request, a drivers request for the same race makes no provider
   * load and lists the drivers of the session the race data came from.
   */
  method RaceDataThenDrivers(memo: SessionMemo, year: int, raceRound: int,
                             first: SessionKey -> Result<Session>, second: SessionKey -> Result<Session>)
    returns (data: Result<RaceData>, drivers: Result<seq<DriverEntry>>)
    requires memo.Valid()
    modifies memo
    ensures memo.Valid()
    ensures data.Ok? ==> memo.providerCalls == old(memo.providerCalls) + (if SessionKey(year, raceRound) in old(memo.entries) then 0 else 1)
    ensures data.Ok? ==> drivers.Ok? && |drivers.value| == |data.value.results|
    ensures data.Ok? ==> forall k :: 0 <= k < |drivers.value| ==>
      drivers.value[k] == DriverEntry(data.value.results[k].driver, data.value.results[k].driverName, data.value.results[k].team)
  {
    ghost var before := memo.State();
    data := GetRaceData(memo, year, raceRound, first);
    drivers := GetDrivers(memo, year, raceRound, second);
    if data.Ok? {
      LookupLoadsOnlyOnMiss(before, SessionKey(year, raceRound), first);
      RepeatLookupIsServedFromMemo(before, SessionKey(year, raceRound), first, second);
    }
  }
}
