/**
 * The `TFL_API` module and the station methods of the earlier script
 * (site/static/js/index.js). Its `get` has no spacing check: only a call
 * before the catalog has loaded is refused, unless it bypasses. Its
 * `getTimetable` has no `!response` test, so a refused or rate-limited
 * request throws when the missing body is iterated; its `loadPlatforms`
 * uses a normal (non-bypassing) `get`. There is no push channel.
 */
module SiteApi {
  import opened Wrappers
  import opened Arrivals
  import opened Requests
  import opened Catalog

  /** What this `getTimetable` settles to, given whether the station is
      loaded, the line passed, whether the catalog has loaded and what the
      sends fetched: a body `for...of` cannot walk (`undefined`, `null`, a
      scalar or an object) throws. */
  function SiteSettled(stationLoaded: bool, stationId: string, line: Option<Line>, platform: Option<string>,
                       known: set<string>, apiLoaded: bool, fetched: Fetched<Json<RawArrival>>): Timetable
  {
    if !stationLoaded then NotLoaded
    else if line.None? then TimetableThrew
    else if !line.value.loaded then NotLoaded
    else if !apiLoaded then TimetableThrew
    else if !Iterable(fetched) then TimetableThrew
    else Timetable(BodyTimetable(fetched.json, PollContext(line.value.id, stationId, platform, known), SiteScript))
  }

  /** This `getTimetable` never answers `null`: it answers `undefined`
      exactly when the station or the line is not loaded, and a timetable
      exactly when the request was sent and answered with an array or a
      string; that timetable is sorted, holds only the station's arrivals
      on the platform asked for, every arrival carries a valid request
      time, and a string answer gives an empty one. */
  lemma SiteSettledSpec(stationLoaded: bool, stationId: string, line: Option<Line>, platform: Option<string>,
                        known: set<string>, apiLoaded: bool, fetched: Fetched<Json<RawArrival>>)
    ensures !SiteSettled(stationLoaded, stationId, line, platform, known, apiLoaded, fetched).NoResponse?
    ensures SiteSettled(stationLoaded, stationId, line, platform, known, apiLoaded, fetched) == NotLoaded <==>
              !stationLoaded || (line.Some? && !line.value.loaded)
    ensures SiteSettled(stationLoaded, stationId, line, platform, known, apiLoaded, fetched).Timetable? <==>
              stationLoaded && line.Some? && line.value.loaded && apiLoaded && Iterable(fetched)
    ensures SiteSettled(stationLoaded, stationId, line, platform, known, apiLoaded, fetched).Timetable? ==>
              var arrivals := SiteSettled(stationLoaded, stationId, line, platform, known, apiLoaded, fetched).arrivals;
              SortedByTts(arrivals)
              && (forall a :: a in arrivals ==>
                    a.platform == platform && a.station == Some(stationId) && a.requestTime.At?)
              && (fetched.json.Text? ==> arrivals == [])
  {
    if stationLoaded && line.Some? && line.value.loaded && apiLoaded && Iterable(fetched) {
      var ctx := PollContext(line.value.id, stationId, platform, known);
      BodyTimetableSpec(fetched.json, ctx, SiteScript);
      if fetched.json.List? {
        MatchingMembers(fetched.json.items, ctx, SiteScript);
        forall a | a in BodyTimetable(fetched.json, ctx, SiteScript)
          ensures a.requestTime.At?
        {
          assert a in multiset(BodyTimetable(fetched.json, ctx, SiteScript));
          assert a in Matching(fetched.json.items, ctx, SiteScript);
        }
      }
    }
  }

  class SiteApi {
    var loaded: bool
    var lines: map<string, Line>
    var stations: map<string, Station>

    /** The module state before `load` has run. */
    constructor()
      ensures !loaded && lines == map[] && stations == map[]
    {
      loaded := false;
      lines := map[];
      stations := map[];
    }

    /** `get(url, bypass)`: refused before load unless bypassed, otherwise
        the 429 retry loop. Nothing is recorded about the call. */
    method Get<J>(bypass: bool, fetch: nat -> Response<J>) returns (r: Fetched<J>, waits: seq<int>)
      ensures !loaded && !bypass ==> r == Rejected && waits == []
      ensures loaded || bypass ==> r == RetryOutcome(fetch).result && waits == RetryOutcome(fetch).waits
    {
      if !loaded && !bypass {
        return Rejected, [];
      }
      r, waits := RetryLoop(fetch);
    }

    /** `load()`: read the lines and then the stations (both bypassing),
        build the catalog, mark every line loaded and set `loaded`. A body
        that is not an array makes its `forEach` throw; a stations failure
        leaves the lines dictionary filled. It runs once, on the state the
        constructor makes. */
    method Load(linesFetch: nat -> Response<Json<LineJson>>, stationsFetch: nat -> Response<Json<StationJson>>)
      returns (c: Completion)
      requires !loaded && lines == map[] && stations == map[]
      modifies this
      ensures c == Completed <==> ListBody(RetryOutcome(linesFetch).result).Some?
                                  && ListBody(RetryOutcome(stationsFetch).result).Some?
      ensures loaded <==> c == Completed
      ensures ListBody(RetryOutcome(linesFetch).result).None? ==> lines == map[] && stations == map[]
      ensures ListBody(RetryOutcome(linesFetch).result).Some? && c == Thrown ==>
                lines == LinesFrom(ListBody(RetryOutcome(linesFetch).result).value) && stations == map[]
      ensures c == Completed ==>
                var lineRecords := ListBody(RetryOutcome(linesFetch).result).value;
                var stationRecords := ListBody(RetryOutcome(stationsFetch).result).value;
                && Catalogued(lineRecords, stationRecords, lines, stations)
    {
      var linesJson, _ := Get(true, linesFetch);
      var stationsJson, _ := Get(true, stationsFetch);
      assert linesJson == RetryOutcome(linesFetch).result && stationsJson == RetryOutcome(stationsFetch).result;
      if !(linesJson.Body? && linesJson.json.List?) {
        return Thrown;
      }
      var built := BuildLines(linesJson.json.items);
      lines := built;
      if !(stationsJson.Body? && stationsJson.json.List?) {
        return Thrown;
      }
      var marked, made := CompleteCatalog(linesJson.json.items, built, stationsJson.json.items);
      lines, stations, loaded := marked, made, true;
      c := Completed;
    }

    /** `station.getTimetable(line, platform)`: `undefined` unless both the
        station and the line are loaded (a missing line throws), then a
        normal `get` whose records on `platform` become sorted arrivals
        (none from a string); a body `for...of` cannot walk throws. */
    method GetTimetable(station: Station, line: Option<Line>, platform: Option<string>,
                        fetch: nat -> Response<Json<RawArrival>>)
      returns (t: Timetable)
      ensures t == SiteSettled(station.loaded, station.id, line, platform, stations.Keys, loaded, RetryOutcome(fetch).result)
    {
      if !station.loaded {
        return NotLoaded;
      }
      if line.None? {
        return TimetableThrew;
      }
      if !line.value.loaded {
        return NotLoaded;
      }
      var response, _ := Get(false, fetch);
      if !Iterable(response) {
        return TimetableThrew;
      }
      var ctx := PollContext(line.value.id, station.id, platform, stations.Keys);
      var arrivals := [];
      if response.json.List? {
        arrivals := CollectMatching(response.json.items, ctx, SiteScript);
      }
      t := Timetable(SortByTts(arrivals));
    }

    /** `station.loadPlatforms(line)`: clear `loaded`, send a normal `get`,
        and store the distinct platform names in first-seen order before
        setting `loaded` again. A missing line, a refused call, no response
        or a body `for...of` cannot walk (a scalar or an object) throws and
        leaves the station not loaded with its old platforms. */
    method LoadPlatforms(station: Station, line: Option<Line>, fetch: nat -> Response<Json<RawArrival>>)
      returns (c: Completion)
      modifies station
      ensures station.loaded <==> c == Completed
      ensures c == Completed <==> line.Some? && loaded && Iterable(RetryOutcome(fetch).result)
      ensures c == Completed ==> station.currentQueryPlatforms == BodyPlatforms(RetryOutcome(fetch).result.json)
      ensures c == Thrown ==> station.currentQueryPlatforms == old(station.currentQueryPlatforms)
    {
      station.loaded := false;
      if line.None? {
        return Thrown;
      }
      var response, _ := Get(false, fetch);
      if !Iterable(response) {
        return Thrown;
      }
      var names := CollectBodyPlatforms(response.json);
      station.currentQueryPlatforms := names;
      station.loaded := true;
      c := Completed;
    }
  }
}
