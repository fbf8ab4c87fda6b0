/**
 * The `TFL_API` module and the station methods of the later script
 * (static/js/index.js): the request policy of `get` (refused before the
 * catalog is loaded or within 0.5 s of the last request, unless bypassed),
 * `load`, the push room handling of `ws` and `setOnWSPush`, the push
 * handler's normalisation, and the station's `getTimetable` and
 * `loadPlatforms`.
 */
module StaticApi {
  import opened Wrappers
  import opened Arrivals
  import opened Requests
  import opened Catalog

  /** `minimum_wait_seconds * 1000`. */
  const MinimumWaitMs: int := 500

  /** The `{LineId, NaptanId}` entry that `ws` joins. */
  datatype Room = Room(lineId: string, naptanId: string)

  /** A call made on the push hub's server proxy. */
  datatype HubCall = AddLineRooms(room: Room) | RemoveLineRooms(room: Room)

  /** `ws_on_push`: not set yet, the "platform not selected" logger, or the
      board filter installed for one platform. */
  datatype PushCallback = Unset | LogIgnored | FilterToBoard(platform: string)

  /** The rooms the hub calls leave joined, oldest call first. */
  function ActiveRooms(calls: seq<HubCall>): set<Room>
    decreases |calls|
  {
    if calls == [] then {}
    else
      var before := ActiveRooms(calls[..|calls| - 1]);
      match calls[|calls| - 1]
      case AddLineRooms(r) => before + {r}
      case RemoveLineRooms(r) => before - {r}
  }

  function RoomSet(r: Option<Room>): set<Room> {
    if r.Some? then {r.value} else {}
  }

  /** The hub call that leaves the room joined before, if any. */
  function Leave(active: Option<Room>): seq<HubCall> {
    if active.Some? then [RemoveLineRooms(active.value)] else []
  }

  /** `get` refuses a call without sending it: before the catalog has loaded
      or within 500 ms of the last request, unless the call bypasses both. */
  predicate Refused(loaded: bool, latest: Option<int>, bypass: bool, now: int) {
    (!loaded && !bypass) || (latest.Some? && !bypass && latest.value + MinimumWaitMs >= now)
  }

  /** A bypassing call is never refused; a normal call is refused before
      load, and after load exactly when it comes no more than 500 ms after
      the last request. */
  lemma RefusedSpec(loaded: bool, latest: Option<int>, now: int)
    ensures !Refused(loaded, latest, true, now)
    ensures !loaded ==> Refused(loaded, latest, false, now)
    ensures loaded ==> (Refused(loaded, latest, false, now) <==> latest.Some? && now - latest.value <= MinimumWaitMs)
  {
  }

  /** What `getTimetable` settles to once `get` has answered `fetched`, for a
      loaded station and line: `null` for a falsy answer (`undefined`,
      `null`, `false`, `0` or `""`), the walked body for an array or a
      non-empty string, and a throw in `for...of` for anything else. */
  function PollResult(fetched: Fetched<Json<RawArrival>>, ctx: PollContext): (t: Timetable)
    ensures t == NoResponse <==> Falsy(fetched)
    ensures t == TimetableThrew <==> !Falsy(fetched) && !Iterable(fetched)
    ensures ListBody(fetched).Some? ==> t == Timetable(Timetabled(ListBody(fetched).value, ctx, StaticScript))
    ensures fetched.Body? && fetched.json.Text? && fetched.json.chars != "" ==> t == Timetable([])
  {
    if Falsy(fetched) then NoResponse
    else if !Iterable(fetched) then TimetableThrew
    else Timetable(BodyTimetable(fetched.json, ctx, StaticScript))
  }

  /** What `getTimetable` settles to, given whether the station is loaded,
      the line passed, whether `get` refused the call and what the sends
      fetched. */
  function Settled(stationLoaded: bool, stationId: string, line: Option<Line>, platform: Option<string>,
                   known: set<string>, refused: bool, fetched: Fetched<Json<RawArrival>>): Timetable
  {
    if !stationLoaded then NotLoaded
    else if line.None? then TimetableThrew
    else if !line.value.loaded then NotLoaded
    else if refused then NoResponse
    else PollResult(fetched, PollContext(line.value.id, stationId, platform, known))
  }

  /** Whether `getTimetable` gets as far as sending a request. */
  predicate Sent(stationLoaded: bool, line: Option<Line>, refused: bool) {
    stationLoaded && line.Some? && line.value.loaded && !refused
  }

  /** `getTimetable` answers `undefined` exactly when the station or the
      line is not loaded; `null` exactly when the call was refused or the
      answer is falsy; a timetable exactly when the request was sent and
      its truthy answer can be walked; and throws otherwise. The timetable
      is sorted and holds only the station's arrivals on the platform asked
      for, and a string answer gives an empty one. */
  lemma SettledSpec(stationLoaded: bool, stationId: string, line: Option<Line>, platform: Option<string>,
                    known: set<string>, refused: bool, fetched: Fetched<Json<RawArrival>>)
    ensures Settled(stationLoaded, stationId, line, platform, known, refused, fetched) == NotLoaded <==>
              !stationLoaded || (line.Some? && !line.value.loaded)
    ensures Settled(stationLoaded, stationId, line, platform, known, refused, fetched) == NoResponse <==>
              stationLoaded && line.Some? && line.value.loaded && (refused || Falsy(fetched))
    ensures Settled(stationLoaded, stationId, line, platform, known, refused, fetched).Timetable? <==>
              Sent(stationLoaded, line, refused) && !Falsy(fetched) && Iterable(fetched)
    ensures Settled(stationLoaded, stationId, line, platform, known, refused, fetched) == TimetableThrew <==>
              stationLoaded && (line.None? || (Sent(stationLoaded, line, refused) && !Falsy(fetched) && !Iterable(fetched)))
    ensures Settled(stationLoaded, stationId, line, platform, known, refused, fetched).Timetable? ==>
              var arrivals := Settled(stationLoaded, stationId, line, platform, known, refused, fetched).arrivals;
              SortedByTts(arrivals)
              && (forall a :: a in arrivals ==> a.platform == platform && a.station == Some(stationId))
              && (fetched.json.Text? ==> arrivals == [])
  {
    if Sent(stationLoaded, line, refused) && !Falsy(fetched) && Iterable(fetched) {
      BodyTimetableSpec(fetched.json, PollContext(line.value.id, stationId, platform, known), StaticScript);
    }
  }

  class TflApi {
    var loaded: bool
    var latestRequestTime: Option<int>
    var lines: map<string, Line>
    var stations: map<string, Station>
    var wsActive: Option<Room>
    var hubCalls: seq<HubCall>
    var onPush: PushCallback

    /** The hub has joined exactly the room `ws_active` names, or none. */
    ghost predicate Valid()
      reads this
    {
      ActiveRooms(hubCalls) == RoomSet(wsActive)
    }

    /** The module state before `load` has run. */
    constructor()
      ensures !loaded && latestRequestTime == None && lines == map[] && stations == map[]
      ensures wsActive == None && hubCalls == [] && onPush == Unset
      ensures Valid()
    {
      loaded := false;
      latestRequestTime := None;
      lines := map[];
      stations := map[];
      wsActive := None;
      hubCalls := [];
      onPush := Unset;
    }

    /** `get(url, bypass)` at time `now` (ms); the waits are those of the
        429 retry loop. */
    method Get<J>(bypass: bool, now: int, fetch: nat -> Response<J>) returns (r: Fetched<J>, waits: seq<int>)
      modifies this
      ensures Refused(old(loaded), old(latestRequestTime), bypass, now) ==>
                r == Rejected && waits == [] && latestRequestTime == old(latestRequestTime)
      ensures !Refused(old(loaded), old(latestRequestTime), bypass, now) ==>
                latestRequestTime == Some(now)
                && r == RetryOutcome(fetch).result && waits == RetryOutcome(fetch).waits
      ensures loaded == old(loaded) && lines == old(lines) && stations == old(stations)
      ensures wsActive == old(wsActive) && hubCalls == old(hubCalls) && onPush == old(onPush)
    {
      if !loaded && !bypass {
        return Rejected, [];
      }
      if latestRequestTime.Some? && !bypass && latestRequestTime.value + MinimumWaitMs >= now {
        return Rejected, [];
      }
      latestRequestTime := Some(now);
      r, waits := RetryLoop(fetch);
    }

    /** `load()`: read the lines and then the stations (both bypassing the
        policy), build the catalog, mark every line loaded and set `loaded`.
        A body that is not an array makes its `forEach` throw; a stations
        failure leaves the lines dictionary filled. It runs once, on the
        state the constructor makes. */
    method Load(nowLines: int, linesFetch: nat -> Response<Json<LineJson>>,
                nowStations: int, stationsFetch: nat -> Response<Json<StationJson>>)
      returns (c: Completion)
      requires !loaded && lines == map[] && stations == map[]
      modifies this
      ensures latestRequestTime == Some(nowStations)
      ensures wsActive == old(wsActive) && hubCalls == old(hubCalls) && onPush == old(onPush)
      ensures c == Completed <==> ListBody(RetryOutcome(linesFetch).result).Some?
                                  && ListBody(RetryOutcome(stationsFetch).result).Some?
      ensures loaded <==> c == Completed
      ensures ListBody(RetryOutcome(linesFetch).result).None? ==> lines == map[] && stations == map[]
      ensures ListBody(RetryOutcome(linesFetch).result).Some? && c == Thrown ==>
                lines == LinesFrom(ListBody(RetryOutcome(linesFetch).result).value) && stations == map[]
      ensures c == Completed ==>
                var lineRecords := ListBody(RetryOutcome(linesFetch).result).value;
                var stationRecords := ListBody(RetryOutcome(stationsFetch).result).value;
                && Catalogued(lineRecords, stationRecords, lines, stations)
    {
      var linesJson, _ := Get(true, nowLines, linesFetch);
      var stationsJson, _ := Get(true, nowStations, stationsFetch);
      c := StoreCatalog(linesJson, stationsJson);
    }

    /** The part of `load` after both answers: the two `forEach` loops and
        the marking of the lines. */
    method StoreCatalog(linesJson: Fetched<Json<LineJson>>, stationsJson: Fetched<Json<StationJson>>)
      returns (c: Completion)
      requires !loaded && lines == map[] && stations == map[]
      modifies this
      ensures latestRequestTime == old(latestRequestTime)
      ensures wsActive == old(wsActive) && hubCalls == old(hubCalls) && onPush == old(onPush)
      ensures c == Completed <==> ListBody(linesJson).Some? && ListBody(stationsJson).Some?
      ensures loaded <==> c == Completed
      ensures ListBody(linesJson).None? ==> lines == map[] && stations == map[]
      ensures ListBody(linesJson).Some? && c == Thrown ==> lines == LinesFrom(ListBody(linesJson).value) && stations == map[]
      ensures c == Completed ==>
                && Catalogued(ListBody(linesJson).value, ListBody(stationsJson).value, lines, stations)
    {
      if !(linesJson.Body? && linesJson.json.List?) {
        return Thrown;
      }
      var built := BuildLines(linesJson.json.items);
      lines := built;
      if !(stationsJson.Body? && stationsJson.json.List?) {
        return Thrown;
      }
      var marked, made := CompleteCatalog(linesJson.json.items, built, stationsJson.json.items);
      lines, stations, loaded := marked, made, true;
      c := Completed;
    }

    /** `ws(line, station)`: leave the room joined before, if any, then join
        the room of `line` at `station`; a missing line or station throws
        once the old room is left. Nothing happens before `load`. */
    method Ws(line: Option<Line>, station: Station?) returns (c: Completion)
      requires Valid()
      modifies this
      ensures Valid()
      ensures !old(loaded) ==> c == Completed && wsActive == old(wsActive) && hubCalls == old(hubCalls)
      ensures old(loaded) && line.Some? && station != null ==>
                c == Completed && wsActive == Some(Room(line.value.id, station.id))
                && hubCalls == old(hubCalls) + Leave(old(wsActive)) + [AddLineRooms(Room(line.value.id, station.id))]
      ensures old(loaded) && (line.None? || station == null) ==>
                c == Thrown && wsActive == None && hubCalls == old(hubCalls) + Leave(old(wsActive))
      ensures loaded == old(loaded) && latestRequestTime == old(latestRequestTime)
      ensures lines == old(lines) && stations == old(stations) && onPush == old(onPush)
    {
      if !loaded {
        return Completed;
      }
      var left := hubCalls + Leave(wsActive);
      LeaveStep(hubCalls, wsActive);
      assert ActiveRooms(left) == RoomSet(None);
      if line.None? || station == null {
        hubCalls, wsActive := left, None;
        return Thrown;
      }
      var room := Room(line.value.id, station.id);
      ActiveRoomsStep(left, AddLineRooms(room));
      assert ActiveRooms(left + [AddLineRooms(room)]) == RoomSet(Some(room));
      hubCalls, wsActive := left + [AddLineRooms(room)], Some(room);
      c := Completed;
    }

    /** `setOnWSPush(callback)`: the callback replaces the one before. */
    method SetOnWSPush(callback: PushCallback)
      modifies this
      ensures onPush == callback
      ensures loaded == old(loaded) && latestRequestTime == old(latestRequestTime)
      ensures lines == old(lines) && stations == old(stations)
      ensures wsActive == old(wsActive) && hubCalls == old(hubCalls)
    {
      onPush := callback;
    }

    /** The push handler's normalisation, for a non-empty batch: the
        twelve-argument arrivals, sorted like a poll. */
    method NormalisePush(batch: seq<PushArrival>) returns (arrivals: seq<Arrival>)
      ensures arrivals == SortByTts(AllPushed(batch, lines.Keys, stations.Keys))
    {
      var normalised := NormaliseBatch(batch, lines.Keys, stations.Keys);
      arrivals := SortByTts(normalised);
    }

    /** `station.getTimetable(line, platform)`: `undefined` unless both the
        station and the line are loaded (a missing line throws), then a
        normal `get` whose falsy answer gives `null`, and otherwise the
        records on `platform` as sorted arrivals (none from a string). */
    method GetTimetable(station: Station, line: Option<Line>, platform: Option<string>, now: int,
                        fetch: nat -> Response<Json<RawArrival>>)
      returns (t: Timetable)
      modifies this
      ensures t == Settled(station.loaded, station.id, line, platform, stations.Keys,
                           Refused(loaded, old(latestRequestTime), false, now), RetryOutcome(fetch).result)
      ensures latestRequestTime == if Sent(station.loaded, line, Refused(loaded, old(latestRequestTime), false, now))
                                   then Some(now) else old(latestRequestTime)
      ensures loaded == old(loaded) && lines == old(lines) && stations == old(stations)
      ensures wsActive == old(wsActive) && hubCalls == old(hubCalls) && onPush == old(onPush)
    {
      if !station.loaded {
        return NotLoaded;
      }
      if line.None? {
        return TimetableThrew;
      }
      if !line.value.loaded {
        return NotLoaded;
      }
      var ctx := PollContext(line.value.id, station.id, platform, stations.Keys);
      var response, _ := Get(false, now, fetch);
      if Falsy(response) {
        return NoResponse;
      }
      if !Iterable(response) {
        return TimetableThrew;
      }
      var arrivals := [];
      if response.json.List? {
        arrivals := CollectMatching(response.json.items, ctx, StaticScript);
      }
      t := Timetable(SortByTts(arrivals));
    }

    /** `station.loadPlatforms(line)`: clear `loaded`, send a bypassing
        `get`, and store the distinct platform names in first-seen order
        before setting `loaded` again. Any failure (a missing line, or a
        body `for...of` cannot walk: `null`, a scalar or an object) throws
        and leaves the station not loaded with its old platforms. */
    method LoadPlatforms(station: Station, line: Option<Line>, now: int, fetch: nat -> Response<Json<RawArrival>>)
      returns (c: Completion)
      modifies this, station
      ensures station.loaded <==> c == Completed
      ensures c == Completed <==> line.Some? && Iterable(RetryOutcome(fetch).result)
      ensures c == Completed ==> station.currentQueryPlatforms == BodyPlatforms(RetryOutcome(fetch).result.json)
      ensures c == Thrown ==> station.currentQueryPlatforms == old(station.currentQueryPlatforms)
      ensures latestRequestTime == if line.Some? then Some(now) else old(latestRequestTime)
      ensures loaded == old(loaded) && lines == old(lines) && stations == old(stations)
      ensures wsActive == old(wsActive) && hubCalls == old(hubCalls) && onPush == old(onPush)
    {
      station.loaded := false;
      if line.None? {
        return Thrown;
      }
      var response, _ := Get(true, now, fetch);
      if !Iterable(response) {
        return Thrown;
      }
      var names := CollectBodyPlatforms(response.json);
      station.currentQueryPlatforms := names;
      station.loaded := true;
      c := Completed;
    }
  }

  /** Under `Valid()` the hub is in at most one room: `ws` never leaves a
      second subscription behind. */
  lemma AtMostOneRoom(calls: seq<HubCall>, active: Option<Room>)
    requires ActiveRooms(calls) == RoomSet(active)
    ensures |ActiveRooms(calls)| <= 1
    ensures active.Some? ==> ActiveRooms(calls) == {active.value}
  {
  }

  /** One more hub call moves the joined rooms as the call says. */
  lemma ActiveRoomsStep(calls: seq<HubCall>, call: HubCall)
    ensures ActiveRooms(calls + [call]) ==
              if call.AddLineRooms? then ActiveRooms(calls) + {call.room} else ActiveRooms(calls) - {call.room}
  {
    assert (calls + [call])[..|calls|] == calls;
  }

  /** Leaving the active room leaves no room joined. */
  lemma LeaveStep(calls: seq<HubCall>, active: Option<Room>)
    requires ActiveRooms(calls) == RoomSet(active)
    ensures ActiveRooms(calls + Leave(active)) == {}
  {
    if active.Some? {
      ActiveRoomsStep(calls, RemoveLineRooms(active.value));
    } else {
      assert calls + Leave(active) == calls;
    }
  }

  /** A batch normalised by the push handler is sorted and loses no record. */
  lemma NormalisePushSpec(batch: seq<PushArrival>, lineIds: set<string>, stationIds: set<string>)
    ensures SortedByTts(SortByTts(AllPushed(batch, lineIds, stationIds)))
    ensures multiset(SortByTts(AllPushed(batch, lineIds, stationIds))) == multiset(AllPushed(batch, lineIds, stationIds))
    ensures |SortByTts(AllPushed(batch, lineIds, stationIds))| == |batch|
  {
    SortByTtsCorrect(AllPushed(batch, lineIds, stationIds));
  }

  /** What the platform filter installed by the platform handler passes to
      the board: a sorted batch holding each pushed arrival on the platform
      as often as the push carried it, and no other. */
  lemma PushFilterSpec(batch: seq<PushArrival>, lineIds: set<string>, stationIds: set<string>, platform: string)
    ensures SortedByTts(OnPlatform(SortByTts(AllPushed(batch, lineIds, stationIds)), Some(platform)))
    ensures forall a :: multiset(OnPlatform(SortByTts(AllPushed(batch, lineIds, stationIds)), Some(platform)))[a] ==
              if a.platform == Some(platform) then multiset(AllPushed(batch, lineIds, stationIds))[a] else 0
  {
    var sorted := SortByTts(AllPushed(batch, lineIds, stationIds));
    NormalisePushSpec(batch, lineIds, stationIds);
    OnPlatformSorted(sorted, Some(platform));
    OnPlatformCounts(sorted, Some(platform));
  }
}
