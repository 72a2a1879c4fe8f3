# F1 race dashboard backend: projections and session memo

This project is a Dafny model of the deterministic core of the dashboard's Flask backend
(`Backend/app.py`). The backend serves race calendars, per-race lap and result tables and
driver rosters. It gets the raw data from the fastf1 library and keeps loaded race sessions
in an in-memory LRU memo.

The model covers:

- **Raw records** (`SessionData`): rows of the lap table, the result table and the season
  schedule, plus the event metadata. Nullable pandas cells are `Option`s. A lap time is an
  integer number of milliseconds and points are integers.
- **Projections** (`Projection`): the loops that build the `laps`, `results`, `drivers` and
  `races` lists. Each loop is a method. Its postcondition ties every output record to the
  input row it came from. Rows are selected through `Selection.KeptIndices`, the ascending
  indices a filter keeps, and `KeptIndicesExact` proves that those indices list each kept
  row exactly once and in order. `total_laps` is `TotalLaps`: the maximum lap number over
  the whole lap table, timed laps or not, and 0 for an empty table.
- **Session memo** (`SessionCache`): `get_cached_session` under `lru_cache(maxsize=50)`. The
  pure state `CacheState` holds a map from `(year, race_round)` to the session, the keys
  ordered from least to most recently used, and a counter of provider loads. `Lookup`
  specifies one call of the memo. The class `SessionMemo` holds the same three fields, and
  its `Get` is proved to behave exactly like `Lookup`. The remote load (`fastf1.get_session`
  followed by `session.load()`) is the `provider` argument of each call. It returns either a
  session or the error it raised.
- **Endpoints** (`RaceService`): the race-data and drivers endpoint bodies, which look the
  session up in the memo and then project it.

Two deliberate modelling choices:

- The lap filter is a vectorised pandas step (`Backend/app.py:79`) followed by a loop over
  the surviving rows (83-91). The model folds both into one loop that skips untimed laps.
  The output is the same.
- The provider is an argument of each call, so two calls may see different load outcomes.
  This is how a retry after a failed load can succeed. A failed load is never stored,
  because `lru_cache` does not cache a call that raised.

## Model

| member | source | states |
|---|---|---|
| `Selection.KeptIndices` | Backend/app.py:79 | there are no more selected indices than rows, each is in range, and each names a row the filter accepts |
| `Selection.KeptIndicesExact` | Backend/app.py:79 | the selected indices are strictly increasing (original order, no duplicates) and include every row the filter accepts |
| `Projection.ProjectLaps` | Backend/app.py:79-91 | one lap entry per lap with a lap time, in lap-table order, and no entry for an untimed lap; each entry copies driver, lap number, lap time and team; a missing position stays `None`; a missing compound becomes `"UNKNOWN"` and a present one is passed through unchanged |
| `Projection.ProjectResults` | Backend/app.py:95-105 | exactly one result entry per result row, in order; abbreviation, full name and team name are copied; a missing position stays `None`; missing points become 0 and present points are kept |
| `Projection.DriverRoster` | Backend/app.py:135-143 | exactly one roster entry per result row, in the same order, with code, name and team copied from the row |
| `Projection.RaceCalendar` | Backend/app.py:40-49 | one calendar entry per schedule event whose format is not `testing`, in schedule order, and no entry for a testing event; each entry carries that event's own round, name, country and location |
| `Projection.MaxLapNumber` | Backend/app.py:119 | on a non-empty lap table, the result is at least every lap's lap number and equals the lap number of some lap |
| `Projection.TotalLaps` | Backend/app.py:119 | `total_laps` is 0 for an empty lap table; otherwise it is the lap number of some lap and at least every lap's lap number, over all laps including untimed ones |
| `Projection.TotalLapsBoundsProjectedLaps` | Backend/app.py:119 | every projected lap's `lap_number` is at most `total_laps` |
| `Projection.TotalLapsCountsUntimedLaps` | Backend/app.py:79-119 | in any lap table, a lap with no lap time that has the largest lap number is dropped from the lap list but its lap number is still `total_laps` |
| `SessionCache.Touch` | Backend/app.py:17-22 | the move-to-end step of a hit: the key becomes the last (most recently used) key, and no key is added or lost; `TouchKeepsMemo` and `WithoutAt` prove that it keeps the invariant and the other keys' order |
| `SessionCache.Admit` | Backend/app.py:17-22 | storing a successful load: the key maps to the loaded session and no load is counted; this is the definition of the eviction of `order[0]` when 50 sessions are stored, and `AdmitKeepsMemo` proves its properties |
| `SessionCache.Lookup` | Backend/app.py:17-22 | one call of the memoised loader: exactly one provider load is counted on a miss and none on a hit, and an error only comes from a miss and leaves the stored sessions unchanged; `LookupKeepsMemo`, `LookupLoadsOnlyOnMiss` and `RepeatLookupIsServedFromMemo` state the rest |
| `SessionCache.WithoutAt` | Backend/app.py:17 | removing a key from the recency order leaves every other key in its previous relative order |
| `SessionCache.TouchKeepsMemo` | Backend/app.py:17 | a hit keeps the memo invariant (each stored key once in the recency order, at most 50 entries) and makes the key the most recently used |
| `SessionCache.AdmitKeepsMemo` | Backend/app.py:17 | storing a new session keeps the invariant (at most 50 entries, each key once in the recency order) and makes the key the most recent; below capacity all keys are kept and the key is appended to the recency order; at capacity exactly the least recently used key is evicted and the remaining order is kept, followed by the key |
| `SessionCache.LookupKeepsMemo` | Backend/app.py:17-22 | every memoised call leaves the memo well formed, so it never holds more than 50 sessions |
| `SessionCache.LookupLoadsOnlyOnMiss` | Backend/app.py:17-22 | a call for a stored key returns the stored session with no provider load and no change to the stored sessions; a call for any other key makes exactly one load and returns its outcome, stored only on success |
| `SessionCache.RepeatLookupIsServedFromMemo` | Backend/app.py:17-22 | after a call for a key returns a session, the next call for the same key returns the same session with no new provider load, whatever the provider would now return |
| `SessionCache.SessionMemo.constructor` | Backend/app.py:17 | the memo starts empty, with no loads made |
| `SessionCache.SessionMemo.Get` | Backend/app.py:17-22 | the memo's new state and the returned value are exactly those of `Lookup`, and the memo invariant is kept |
| `RaceService.RaceDataOf` | Backend/app.py:72-119 | the race-data payload holds the event's name, country and location, the projected laps, the projected results and `total_laps`, which is at least every listed lap number |
| `RaceService.GetRaceData` | Backend/app.py:63-120 | the session is resolved through the memo; a failed load is returned as its error; otherwise the payload describes the loaded session |
| `RaceService.GetDrivers` | Backend/app.py:130-148 | the session is resolved through the memo; a failed load is returned as its error; otherwise one roster entry per result row of the loaded session |
| `RaceService.RaceDataThenDrivers` | Backend/app.py:130-143 | the two endpoints share the memo: a drivers request after a successful race-data request for the same race makes no provider load and lists, entry for entry, the code, name and team of the results in the race data; the memo stays valid for later requests |

## Left out

- Flask setup, routing, CORS, `jsonify`, the `home` endpoint and the `__main__` block: HTTP plumbing.
- fastf1 itself (`get_event_schedule`, `get_session`, `session.load`) and its on-disk cache: foreign library and filesystem I/O. The session load is the `provider` argument, and the schedule is an argument of `RaceCalendar`.
- The `get_races` endpoint wrapper around `RaceCalendar`: it only adds the schedule fetch and the response envelope.
- pandas mechanics (`iterrows`, column subsetting, `notna`): rows are datatypes with `Option` cells.
- Floating point: `total_seconds()` is modelled as integer milliseconds, and `float(Points)` as integer points.
- Projection.ProjectResults: does not model fractional points (half-points races), because points are integers here.
- The `except Exception` handlers that turn errors raised after the load into HTTP 500 responses, and the `print` logging. The error from a failed load is propagated as `Err`.
- Errors that pandas or `int()` would raise on malformed data, such as a missing column or a missing `LapNumber`: lap numbers are always present in the model.
- Thread safety of `lru_cache`, including the branch that finds a key already inserted by another thread while the load ran: this is concurrency.
- The memo key is `(year, race_round)` with the session type fixed to the race (`'R'`), as in the source.
