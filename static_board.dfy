/**
 * The page side of the later script (static/js/index.js): the state of
 * `BoardDomHandler` and its poll loop, `update_url`, the option-select
 * handlers, the push callback the platform handler installs, and the
 * window-load handler that restores a selection from the URL path.
 *
 * The three option selects are not modelled as DOM state: each handler is
 * given the value its select reports. Timers are not run; a scheduled poll
 * is the `pending` delay, and firing it is the `PollTimerFires` method.
 */
module StaticBoard {
  import opened Wrappers
  import opened Js
  import opened Arrivals
  import opened Rendering
  import opened Requests
  import opened Catalog
  import opened StaticApi

  /** The clock reading when `get` runs and the answers to its sends: what a
      request of the arrivals endpoint meets. */
  datatype Request = Request(now: int, fetch: nat -> Response<Json<RawArrival>>)

  /** The delay `setTimeout(query_fn, d * 1000)` was given: whole seconds, or
      `undefined` (a NaN delay, which fires at once). */
  datatype Delay = Seconds(n: int) | Undefined

  /** What `updateBoardTextFromArrivals` did: returned a delay, or threw. */
  datatype Update = Returned(delay: Delay) | UpdateThrew

  /** The screen and `last_query_time` after `updateBoardTextFromArrivals`,
      and what it returned. */
  datatype Applied = Applied(screen: Screen, last: Option<Stamp>, result: Update)

  /** The board after one run of `query_fn` that reached `getTimetable`: the
      screen, `last_query_time`, and the timer left pending (`None` when an
      exception ended the loop). */
  datatype Poll = Poll(screen: Screen, last: Option<Stamp>, pending: Option<Delay>)

  // ------------------------------------------------------ arrivals update

  /** The staleness test `last_query_time && arrivals[0]?.request_time ||
      Infinity <= last_query_time`. A `Date` is always truthy (the invalid
      date too), `arrivals[0]?.request_time` is a `Date` exactly when there
      is a first arrival, and `Infinity <= d` is false for every `Date` and
      for `null`; so the test holds once any update has been applied and the
      list is not empty. */
  predicate Skips(last: Option<Stamp>, arrivals: seq<Arrival>) {
    last.Some? && arrivals != []
  }

  /** `updateBoardTextFromArrivals(arrivals)` on `screen` with
      `last_query_time` equal to `last`: an empty list shows "No trains
      arriving" and then throws on `arrivals[0].request_time`; a skipped
      list returns `undefined`; otherwise the arrivals are shown, their first
      request time is kept, and the next delay is returned. */
  function ApplyArrivals(screen: Screen, last: Option<Stamp>, arrivals: seq<Arrival>): Applied {
    var base := if arrivals == [] then NoTrains else screen;
    if Skips(last, arrivals) then Applied(base, last, Returned(Undefined))
    else if arrivals == [] then Applied(base, last, UpdateThrew)
    else Applied(ShowArrivals(base, arrivals), Some(arrivals[0].requestTime), Returned(Seconds(NextDelay(arrivals))))
  }

  /** An update throws exactly on an empty list, which leaves "No trains
      arriving" on the board. Once an update has been applied, every later
      non-empty list is skipped and leaves the board as it was. The first
      non-empty list is shown, its first request time is kept, and the
      returned delay is 10 or 30 seconds. */
  lemma ApplyArrivalsSpec(screen: Screen, last: Option<Stamp>, arrivals: seq<Arrival>)
    ensures ApplyArrivals(screen, last, arrivals).result.UpdateThrew? <==> arrivals == []
    ensures arrivals == [] ==>
              ApplyArrivals(screen, last, arrivals).screen == NoTrains && ApplyArrivals(screen, last, arrivals).last == last
    ensures arrivals != [] && last.Some? ==>
              ApplyArrivals(screen, last, arrivals) == Applied(screen, last, Returned(Undefined))
    ensures arrivals != [] && last.None? ==>
              var a := ApplyArrivals(screen, last, arrivals);
              a.screen.line1 == ArrivalRow(1, arrivals[0]) && a.last == Some(arrivals[0].requestTime)
              && (a.result == Returned(Seconds(10)) || a.result == Returned(Seconds(30)))
  {
    if arrivals != [] && last.None? {
      NextDelaySpec(arrivals);
    }
  }

  /** So the board can show arrivals at most once: after a first list has
      been shown, a second non-empty one changes nothing. */
  lemma ShownOnce(screen: Screen, first: seq<Arrival>, second: seq<Arrival>)
    requires first != [] && second != []
    ensures var a := ApplyArrivals(screen, None, first);
            ApplyArrivals(a.screen, a.last, second) == Applied(a.screen, a.last, Returned(Undefined))
  {
    ApplyArrivalsSpec(screen, None, first);
    ApplyArrivalsSpec(ApplyArrivals(screen, None, first).screen, ApplyArrivals(screen, None, first).last, second);
  }

  // ------------------------------------------------------------ the poll

  /** What `query_fn` does with what `getTimetable` settled to: `undefined`
      or `null` wait five seconds; an exception ends the loop; a timetable is
      applied and, unless that throws, its returned delay is scheduled. */
  function AfterTimetable(t: Timetable, screen: Screen, last: Option<Stamp>): Poll {
    match t
    case NotLoaded => Poll(screen, last, Some(Seconds(5)))
    case NoResponse => Poll(screen, last, Some(Seconds(5)))
    case TimetableThrew => Poll(screen, last, None)
    case Timetable(arrivals) =>
      var a := ApplyArrivals(screen, last, arrivals);
      Poll(a.screen, a.last, if a.result.Returned? then Some(a.result.delay) else None)
  }

  /** The loop goes on after every poll except one that threw or got an
      empty timetable, and the next poll is 5, 10 or 30 seconds away, or at
      once when the update was skipped. */
  lemma AfterTimetableSpec(t: Timetable, screen: Screen, last: Option<Stamp>)
    ensures AfterTimetable(t, screen, last).pending.None? <==>
              t.TimetableThrew? || (t.Timetable? && t.arrivals == [])
    ensures AfterTimetable(t, screen, last).pending.Some? ==>
              AfterTimetable(t, screen, last).pending.value in {Seconds(5), Seconds(10), Seconds(30), Undefined}
    ensures t.NotLoaded? || t.NoResponse? ==> AfterTimetable(t, screen, last) == Poll(screen, last, Some(Seconds(5)))
  {
    if t.Timetable? {
      ApplyArrivalsSpec(screen, last, t.arrivals);
    }
  }

  /** One run of `query_fn` that reaches `station.getTimetable(line,
      platform)`, with `latest` the API's last request time before it. */
  function Polling(api: TflApi, station: Station, line: Option<Line>, platform: Option<string>,
                   latest: Option<int>, req: Request, screen: Screen, last: Option<Stamp>): Poll
    reads api, station
  {
    AfterTimetable(
      Settled(station.loaded, station.id, line, platform, api.stations.Keys,
              Refused(api.loaded, latest, false, req.now), RetryOutcome(req.fetch).result),
      screen, last)
  }

  // ----------------------------------------------------------------- URL

  /** `segments[i]` in a destructuring: `undefined` past the end. */
  function Segment(segs: seq<string>, i: nat): (r: Option<string>)
    ensures r.Some? <==> i < |segs|
    ensures r.Some? ==> r.value == segs[i]
  {
    if i < |segs| then Some(segs[i]) else None
  }

  /** The path `update_url` writes for the selected line id, station id and
      platform: each part only when the ones before it are selected, the
      platform only when it is not empty, each followed by a '/'. */
  function UrlPath(lineId: Option<string>, stationId: Option<string>, platform: Option<string>): string {
    "/" + if lineId.Some? then
            lineId.value + "/" + if stationId.Some? then
                                   stationId.value + "/" + if Truthy(platform) then platform.value + "/" else ""
                                 else ""
          else ""
  }

  /** The path pieces after the leading one, as the window-load handler
      reads them. */
  function PathSegments(path: string): seq<string> {
    Split(path, '/')[1..]
  }

  /** Reading a written path back gives the parts that were written, when
      the ids are not empty and none of the parts holds a '/': each part is
      truthy exactly when it was written. */
  lemma UrlPathRoundTrip(l: Option<string>, s: Option<string>, p: Option<string>)
    requires l.Some? ==> l.value != "" && '/' !in l.value
    requires s.Some? ==> s.value != "" && '/' !in s.value
    requires p.Some? ==> '/' !in p.value
    ensures var segs := PathSegments(UrlPath(l, s, p));
            && (Truthy(Segment(segs, 0)) <==> l.Some?) && (l.Some? ==> Segment(segs, 0) == l)
            && (Truthy(Segment(segs, 1)) <==> l.Some? && s.Some?) && (l.Some? && s.Some? ==> Segment(segs, 1) == s)
            && (Truthy(Segment(segs, 2)) <==> l.Some? && s.Some? && Truthy(p))
            && (l.Some? && s.Some? && Truthy(p) ==> Segment(segs, 2) == p)
  {
    PathSegmentsWritten(l, s, p);
  }

  /** The segments a written path is read back as. */
  function WrittenSegments(l: Option<string>, s: Option<string>, p: Option<string>): seq<string> {
    if l.None? then [""]
    else if s.None? then [l.value, ""]
    else if !Truthy(p) then [l.value, s.value, ""]
    else [l.value, s.value, p.value, ""]
  }

  /** Splitting a written path gives each written part and a final empty
      piece. */
  lemma PathSegmentsWritten(l: Option<string>, s: Option<string>, p: Option<string>)
    requires l.Some? ==> '/' !in l.value
    requires s.Some? ==> '/' !in s.value
    requires p.Some? ==> '/' !in p.value
    ensures PathSegments(UrlPath(l, s, p)) == WrittenSegments(l, s, p)
  {
    if l.None? {
      SegmentsOfRest("");
    } else if s.None? {
      SegmentsOfRest(l.value + "/" + "");
      SlashStep(l.value, "");
    } else if !Truthy(p) {
      SegmentsOfRest(l.value + "/" + (s.value + "/" + ""));
      SlashStep(l.value, s.value + "/" + "");
      SlashStep(s.value, "");
    } else {
      var tailP := p.value + "/";
      SegmentsOfRest(l.value + "/" + (s.value + "/" + tailP));
      SlashStep(l.value, s.value + "/" + tailP);
      SlashStep(s.value, tailP);
      SlashStep(p.value, "");
      assert tailP == p.value + "/" + "";
    }
  }

  /** The segments of `/` followed by `rest` are the pieces of `rest`. */
  lemma SegmentsOfRest(rest: string)
    ensures PathSegments("/" + rest) == Split(rest, '/')
    ensures Split("", '/') == [""]
  {
    assert "/" + rest == "" + "/" + rest;
    SlashStep("", rest);
  }

  /** A piece without `/` followed by `/` is the first piece of a split. */
  lemma SlashStep(a: string, b: string)
    requires '/' !in a
    ensures Split(a + "/" + b, '/') == [a] + Split(b, '/')
  {
    assert a + "/" + b == a + ['/'] + b;
    SplitAround(a, b, '/');
  }

  // --------------------------------------------------------------- board

  /** `BoardDomHandler`: the selection, the poll state and the screen, with
      `location` the path in the address bar. */
  class Board {
    var line: Option<Line>
    var station: Station?
    var platform: Option<string>
    var changed: bool
    var pending: Option<Delay>
    var lastQueryTime: Option<Stamp>
    var cancel: bool
    var screen: Screen
    var location: string
    /** How many times arrivals have been shown. */
    ghost var shown: nat

    /** Arrivals are shown at most once, and `last_query_time` is set
        exactly when they have been. */
    ghost predicate Valid()
      reads this
    {
      shown <= 1 && (shown == 0 <==> lastQueryTime.None?)
    }

    /** `line && station && platform`. */
    predicate Selected()
      reads this
    {
      line.Some? && station != null && Truthy(platform)
    }

    /** The path `update_url` writes for the current selection. */
    function Path(): string
      reads this
    {
      UrlPath(if line.Some? then Some(line.value.id) else None, if station != null then Some(station.id) else None, platform)
    }

    /** The line name and station flag the prompt is written from. */
    function PromptScreen(): Screen
      reads this
    {
      Prompt(if line.Some? then Some(line.value.name) else None, station != null)
    }

    /** The handler when the page loads at `pathname`: nothing selected, no
        timer, the board cleared. */
    constructor(pathname: string)
      ensures line == None && station == null && platform == None && changed && pending == None
      ensures lastQueryTime == None && !cancel && screen == Cleared && location == pathname
      ensures Valid()
    {
      line := None;
      station := null;
      platform := None;
      changed := true;
      pending := None;
      lastQueryTime := None;
      cancel := false;
      screen := Cleared;
      location := pathname;
      shown := 0;
    }

    /** `setPlatform(val, pushToUrl)`. */
    method SetPlatform(val: Option<string>, pushToUrl: bool)
      modifies this
      ensures platform == val && changed && line == old(line) && station == old(station)
      ensures location == if pushToUrl then Path() else old(location)
      ensures pending == old(pending) && lastQueryTime == old(lastQueryTime) && cancel == old(cancel)
      ensures screen == old(screen) && shown == old(shown)
    {
      platform := val;
      if pushToUrl {
        location := Path();
      }
      changed := true;
    }

    /** `setStation(val, pushToUrl)`: also clears the platform. */
    method SetStation(val: Station?, pushToUrl: bool)
      modifies this
      ensures station == val && platform == None && changed && line == old(line)
      ensures location == if pushToUrl then Path() else old(location)
      ensures pending == old(pending) && lastQueryTime == old(lastQueryTime) && cancel == old(cancel)
      ensures screen == old(screen) && shown == old(shown)
    {
      station := val;
      if pushToUrl {
        location := Path();
      }
      SetPlatform(None, pushToUrl);
      changed := true;
    }

    /** `setLine(val, pushToUrl)`: also clears the station and the platform. */
    method SetLine(val: Option<Line>, pushToUrl: bool)
      modifies this
      ensures line == val && station == null && platform == None && changed
      ensures location == if pushToUrl then Path() else old(location)
      ensures pending == old(pending) && lastQueryTime == old(lastQueryTime) && cancel == old(cancel)
      ensures screen == old(screen) && shown == old(shown)
    {
      line := val;
      if pushToUrl {
        location := Path();
      }
      SetStation(null, pushToUrl);
      changed := true;
    }

    /** `update_url()`. */
    method UpdateUrl()
      modifies this
      ensures location == Path()
      ensures line == old(line) && station == old(station) && platform == old(platform) && changed == old(changed)
      ensures pending == old(pending) && lastQueryTime == old(lastQueryTime) && cancel == old(cancel)
      ensures screen == old(screen) && shown == old(shown)
    {
      location := Path();
    }

    /** `cancelGetRequestLoop()`: the next `query_fn` run stops the loop. */
    method CancelGetRequestLoop()
      modifies this
      ensures cancel
      ensures line == old(line) && station == old(station) && platform == old(platform) && changed == old(changed)
      ensures pending == old(pending) && lastQueryTime == old(lastQueryTime) && location == old(location)
      ensures screen == old(screen) && shown == old(shown)
    {
      cancel := true;
    }

    /** `updateBoardTextFromArrivals(arrivals)`; with no `pagetype` defined
        a skipped list returns `undefined`. */
    method UpdateBoardTextFromArrivals(arrivals: seq<Arrival>) returns (u: Update)
      requires Valid()
      modifies this
      ensures Valid()
      ensures var a := ApplyArrivals(old(screen), old(lastQueryTime), arrivals);
              screen == a.screen && lastQueryTime == a.last && u == a.result
      ensures line == old(line) && station == old(station) && platform == old(platform) && changed == old(changed)
      ensures pending == old(pending) && cancel == old(cancel) && location == old(location)
    {
      if arrivals == [] {
        screen := NoTrains;
      }
      if lastQueryTime.Some? && arrivals != [] {
        return Returned(Undefined);
      }
      if arrivals == [] {
        return UpdateThrew;
      }
      lastQueryTime := Some(arrivals[0].requestTime);
      shown := shown + 1;
      screen := ShowArrivals(screen, arrivals);
      u := Returned(Seconds(NextDelay(arrivals)));
    }

    /** `query_fn`: a pending cancel is consumed and stops the loop; a
        missing station throws; otherwise the station's timetable is read
        and acted on as `AfterTimetable` says. It runs with no timer left. */
    method QueryFn(api: TflApi, req: Request) returns (c: Completion)
      requires Valid() && pending.None?
      modifies this, api
      ensures Valid()
      ensures old(cancel) ==>
                c == Completed && !cancel && screen == old(screen) && lastQueryTime == old(lastQueryTime)
                && pending == None && api.latestRequestTime == old(api.latestRequestTime)
      ensures !old(cancel) && station == null ==>
                c == Thrown && !cancel && screen == old(screen) && lastQueryTime == old(lastQueryTime)
                && pending == None && api.latestRequestTime == old(api.latestRequestTime)
      ensures !old(cancel) && station != null ==>
                var p := Polling(api, station, line, platform, old(api.latestRequestTime), req, old(screen), old(lastQueryTime));
                !cancel && screen == p.screen && lastQueryTime == p.last && pending == p.pending
                && (c == Thrown <==> p.pending.None?)
                && api.latestRequestTime ==
                     if Sent(station.loaded, line, Refused(api.loaded, old(api.latestRequestTime), false, req.now))
                     then Some(req.now) else old(api.latestRequestTime)
      ensures line == old(line) && station == old(station) && platform == old(platform)
      ensures changed == old(changed) && location == old(location)
      ensures api.loaded == old(api.loaded) && api.lines == old(api.lines) && api.stations == old(api.stations)
      ensures api.wsActive == old(api.wsActive) && api.hubCalls == old(api.hubCalls) && api.onPush == old(api.onPush)
    {
      if cancel {
        cancel := false;
        return Completed;
      }
      if station == null {
        return Thrown;
      }
      var t := api.GetTimetable(station, line, platform, req.now, req.fetch);
      match t {
        case NotLoaded =>
          pending := Some(Seconds(5));
          c := Completed;
        case NoResponse =>
          pending := Some(Seconds(5));
          c := Completed;
        case TimetableThrew =>
          c := Thrown;
        case Timetable(arrivals) =>
          var u := UpdateBoardTextFromArrivals(arrivals);
          if u.UpdateThrew? {
            c := Thrown;
          } else {
            pending := Some(u.delay);
            c := Completed;
          }
      }
    }

    /** `updateBoardText()`: with a line, a station and a platform selected
        and the selection changed, clear the board, drop the timer and poll
        at once; with the selection unchanged, nothing; with the selection
        incomplete, the prompt (any timer left running keeps running). */
    method UpdateBoardText(api: TflApi, req: Request)
      requires Valid()
      modifies this, api
      ensures Valid()
      ensures line == old(line) && station == old(station) && platform == old(platform) && location == old(location)
      ensures api.loaded == old(api.loaded) && api.lines == old(api.lines) && api.stations == old(api.stations)
      ensures api.wsActive == old(api.wsActive) && api.hubCalls == old(api.hubCalls) && api.onPush == old(api.onPush)
      ensures !old(Selected()) ==>
                screen == old(PromptScreen()) && pending == old(pending) && changed == old(changed)
                && cancel == old(cancel) && lastQueryTime == old(lastQueryTime)
                && api.latestRequestTime == old(api.latestRequestTime)
      ensures old(Selected()) && !old(changed) ==>
                screen == old(screen) && pending == old(pending) && !changed
                && cancel == old(cancel) && lastQueryTime == old(lastQueryTime)
                && api.latestRequestTime == old(api.latestRequestTime)
      ensures old(Selected()) && old(changed) && old(cancel) ==>
                screen == Cleared && pending == None && !changed && !cancel && lastQueryTime == old(lastQueryTime)
                && api.latestRequestTime == old(api.latestRequestTime)
      ensures old(Selected()) && old(changed) && !old(cancel) ==>
                var p := Polling(api, station, line, platform, old(api.latestRequestTime), req, Cleared, old(lastQueryTime));
                screen == p.screen && lastQueryTime == p.last && pending == p.pending && !changed && !cancel
    {
      if Selected() {
        if changed {
          changed := false;
          screen := Cleared;
          pending := None;
          var _ := QueryFn(api, req);
        }
      } else {
        screen := PromptScreen();
      }
    }

    /** The poll timer fires: the timer is used up and `query_fn` runs. */
    method PollTimerFires(api: TflApi, req: Request) returns (c: Completion)
      requires Valid() && pending.Some?
      modifies this, api
      ensures Valid()
      ensures old(cancel) ==> c == Completed && !cancel && screen == old(screen) && pending == None
      ensures !old(cancel) && station == null ==> c == Thrown && screen == old(screen) && pending == None
      ensures !old(cancel) && station != null ==>
                var p := Polling(api, station, line, platform, old(api.latestRequestTime), req, old(screen), old(lastQueryTime));
                screen == p.screen && lastQueryTime == p.last && pending == p.pending
      ensures line == old(line) && station == old(station) && platform == old(platform)
      ensures changed == old(changed) && location == old(location)
      ensures api.loaded == old(api.loaded) && api.lines == old(api.lines) && api.stations == old(api.stations)
      ensures api.wsActive == old(api.wsActive) && api.hubCalls == old(api.hubCalls) && api.onPush == old(api.onPush)
    {
      pending := None;
      c := QueryFn(api, req);
    }
  }

  // ------------------------------------------------------------ handlers

  /** `on_select_change_line` with the line select reporting `val`, which
      is "" or the id of one of the catalog's lines, the only options the
      select offers: the line is set (or cleared for ""), which clears the station and the
      platform, and the prompt for a station is shown. No platforms are
      loaded, since no station is selected. */
  method OnSelectChangeLine(api: TflApi, board: Board, val: string, req: Request)
    requires board.Valid() && api.Valid()
    requires val == "" || val in api.lines
    modifies api, board
    ensures board.Valid() && api.Valid()
    ensures board.line == (if val == "" then None else LineById(api.lines, val))
    ensures board.line.Some? <==> val != ""
    ensures board.station == null && board.platform == None && board.changed
    ensures board.location == board.Path()
    ensures board.screen == board.PromptScreen()
    ensures board.pending == old(board.pending) && board.cancel == old(board.cancel)
    ensures board.lastQueryTime == old(board.lastQueryTime)
    ensures api.loaded == old(api.loaded) && api.lines == old(api.lines) && api.stations == old(api.stations)
    ensures api.latestRequestTime == old(api.latestRequestTime)
    ensures api.wsActive == old(api.wsActive) && api.hubCalls == old(api.hubCalls) && api.onPush == old(api.onPush)
  {
    if val == "" {
      board.SetLine(None, true);
    } else {
      board.SetLine(LineById(api.lines, val), true);
    }
    board.UpdateBoardText(api, req);
  }

  /** `on_select_change_station` with the station select reporting `val`
      (`None` when no option is chosen). For "" the station is cleared.
      Otherwise the station is set, the prompt shown, the push room moved to
      it, the push callback set to the logger, and, with a line and a
      station selected, the station's platforms loaded with `load`. */
  method OnSelectChangeStation(api: TflApi, board: Board, val: Option<string>, req: Request, load: Request)
    requires board.Valid() && api.Valid()
    modifies api, board, api.stations.Values
    ensures board.Valid() && api.Valid()
    ensures board.station == (if val == Some("") then null else StationById(api.stations, val))
    ensures board.line == old(board.line) && board.platform == None && board.changed
    ensures board.location == board.Path()
    ensures board.screen == board.PromptScreen()
    ensures board.pending == old(board.pending) && board.cancel == old(board.cancel)
    ensures board.lastQueryTime == old(board.lastQueryTime)
    ensures val == Some("") ==>
              api.onPush == old(api.onPush) && api.wsActive == old(api.wsActive) && api.hubCalls == old(api.hubCalls)
    ensures val != Some("") ==> api.onPush == LogIgnored
    ensures val != Some("") && api.loaded ==>
              api.wsActive == (if board.line.Some? && board.station != null
                               then Some(Room(board.line.value.id, board.station.id)) else None)
    ensures val != Some("") && board.line.Some? && board.station != null ==>
              (board.station.loaded <==> Iterable(RetryOutcome(load.fetch).result))
              && (board.station.loaded ==>
                    board.station.currentQueryPlatforms == BodyPlatforms(RetryOutcome(load.fetch).result.json))
              && api.latestRequestTime == Some(load.now)
    ensures api.loaded == old(api.loaded) && api.lines == old(api.lines) && api.stations == old(api.stations)
  {
    if val == Some("") {
      board.SetStation(null, true);
      board.UpdateBoardText(api, req);
      return;
    }
    board.SetStation(StationById(api.stations, val), true);
    board.UpdateBoardText(api, req);
    EnterStation(api, board.line, board.station, load);
  }

  /** The tail of `on_select_change_station` for a chosen station: move the
      push room, set the push callback to the logger and, with a line and a
      station, load the station's platforms. */
  method EnterStation(api: TflApi, line: Option<Line>, station: Station?, load: Request)
    requires api.Valid()
    modifies api, station
    ensures api.Valid()
    ensures api.onPush == LogIgnored
    ensures api.loaded ==>
              api.wsActive == (if line.Some? && station != null then Some(Room(line.value.id, station.id)) else None)
    ensures line.Some? && station != null ==>
              (station.loaded <==> Iterable(RetryOutcome(load.fetch).result))
              && (station.loaded ==> station.currentQueryPlatforms == BodyPlatforms(RetryOutcome(load.fetch).result.json))
              && api.latestRequestTime == Some(load.now)
    ensures api.loaded == old(api.loaded) && api.lines == old(api.lines) && api.stations == old(api.stations)
  {
    var _ := api.Ws(line, station);
    api.SetOnWSPush(LogIgnored);
    if line.Some? && station != null {
      var _ := api.LoadPlatforms(station, line, load.now, load.fetch);
    }
  }

  /** `on_select_change_platform` with the platform select reporting `val`:
      "" clears the platform; otherwise the push callback is set to filter
      pushes for `val` onto the board, the platform is set and the board
      updated, which starts the poll loop when the line and station are
      selected too. */
  method OnSelectChangePlatform(api: TflApi, board: Board, val: string, req: Request)
    requires board.Valid() && api.Valid()
    modifies api, board
    ensures board.Valid() && api.Valid()
    ensures board.platform == (if val == "" then None else Some(val))
    ensures board.line == old(board.line) && board.station == old(board.station)
    ensures board.location == board.Path()
    ensures api.onPush == if val == "" then old(api.onPush) else FilterToBoard(val)
    ensures val == "" ==> board.screen == board.PromptScreen() && board.pending == old(board.pending)
    ensures val != "" && (board.line.None? || board.station == null) ==>
              board.screen == board.PromptScreen() && board.pending == old(board.pending)
    ensures val != "" && board.line.Some? && board.station != null && !old(board.cancel) ==>
              var p := Polling(api, board.station, board.line, board.platform, old(api.latestRequestTime), req,
                               Cleared, old(board.lastQueryTime));
              board.screen == p.screen && board.lastQueryTime == p.last && board.pending == p.pending
    ensures val != "" && board.line.Some? && board.station != null && old(board.cancel) ==>
              board.screen == Cleared && board.pending == None && !board.cancel
    ensures api.loaded == old(api.loaded) && api.lines == old(api.lines) && api.stations == old(api.stations)
    ensures api.wsActive == old(api.wsActive) && api.hubCalls == old(api.hubCalls)
  {
    if val == "" {
      board.SetPlatform(None, true);
      board.UpdateBoardText(api, req);
      return;
    }
    api.SetOnWSPush(FilterToBoard(val));
    board.SetPlatform(Some(val), true);
    board.UpdateBoardText(api, req);
  }

  /** The push handler `showPredictions` for one batch: an empty batch is
      ignored; otherwise the batch is normalised and sorted and handed to
      the callback. With no callback set the call throws; the logger does
      nothing; the platform filter keeps the arrivals on its platform,
      cancels the poll loop and applies them to the board. */
  method OnPush(api: TflApi, board: Board, batch: seq<PushArrival>) returns (c: Completion)
    requires board.Valid()
    modifies board
    ensures board.Valid()
    ensures batch == [] || !api.onPush.FilterToBoard? ==>
              board.screen == old(board.screen) && board.lastQueryTime == old(board.lastQueryTime)
              && board.cancel == old(board.cancel)
    ensures batch == [] || api.onPush.LogIgnored? ==> c == Completed
    ensures batch != [] && api.onPush.Unset? ==> c == Thrown
    ensures batch != [] && api.onPush.FilterToBoard? ==>
              var a := ApplyArrivals(old(board.screen), old(board.lastQueryTime),
                                     OnPlatform(SortByTts(AllPushed(batch, api.lines.Keys, api.stations.Keys)),
                                                Some(api.onPush.platform)));
              board.cancel && board.screen == a.screen && board.lastQueryTime == a.last
              && (c == Thrown <==> a.result.UpdateThrew?)
    ensures batch != [] && api.onPush.FilterToBoard? ==>
              var shown := OnPlatform(SortByTts(AllPushed(batch, api.lines.Keys, api.stations.Keys)),
                                      Some(api.onPush.platform));
              SortedByTts(shown)
              && forall a :: multiset(shown)[a] ==
                   if a.platform == Some(api.onPush.platform) then multiset(AllPushed(batch, api.lines.Keys, api.stations.Keys))[a] else 0
    ensures board.line == old(board.line) && board.station == old(board.station) && board.platform == old(board.platform)
    ensures board.pending == old(board.pending) && board.changed == old(board.changed)
    ensures board.location == old(board.location)
  {
    if batch == [] {
      return Completed;
    }
    var arrivals := api.NormalisePush(batch);
    match api.onPush {
      case Unset =>
        c := Thrown;
      case LogIgnored =>
        c := Completed;
      case FilterToBoard(p) =>
        PushFilterSpec(batch, api.lines.Keys, api.stations.Keys, p);
        var filtered := OnPlatform(arrivals, Some(p));
        board.CancelGetRequestLoop();
        var u := board.UpdateBoardTextFromArrivals(filtered);
        c := if u.UpdateThrew? then Thrown else Completed;
    }
  }

  /** The window-load handler's platform step, once the station handler
      has run: wait for `reset_select_platform` (which throws for a missing
      station, and otherwise loads the platforms with `second`), then pick
      `pname` when it is among them. */
  method RestorePlatform(api: TflApi, board: Board, pname: string, req: Request, second: Request)
    returns (c: Completion)
    requires api.Valid() && board.Valid() && board.line.Some? && board.platform == None && pname != ""
    requires board.station == null || board.station in api.stations.Values
    modifies api, board, api.stations.Values
    ensures api.Valid() && board.Valid()
    ensures api.loaded == old(api.loaded) && api.lines == old(api.lines) && api.stations == old(api.stations)
    ensures board.line == old(board.line) && board.station == old(board.station)
    ensures c == Thrown <==> board.station == null || !board.station.loaded
    ensures c == Completed ==>
              Iterable(RetryOutcome(second.fetch).result)
              && board.station.currentQueryPlatforms == BodyPlatforms(RetryOutcome(second.fetch).result.json)
    ensures board.platform.Some? <==> c == Completed && Some(pname) in board.station.currentQueryPlatforms
    ensures board.platform.Some? ==> board.platform == Some(pname)
  {
    if board.station == null {
      return Thrown;
    }
    var loaded := api.LoadPlatforms(board.station, board.line, second.now, second.fetch);
    if loaded == Thrown {
      return Thrown;
    }
    if Some(pname) in board.station.currentQueryPlatforms {
      board.SetPlatform(Some(pname), false);
      OnSelectChangePlatform(api, board, pname, req);
    }
    c := Completed;
  }

  /** The window-load handler's station step for a known station `sid`:
      select it, then run the station handler with what the filtered station
      select reports (the id when the station serves line `lid`, no option
      otherwise), then the platform step when `pname` is truthy. */
  method RestoreStation(api: TflApi, board: Board, lid: string, sid: string, pname: Option<string>,
                        req: Request, first: Request, second: Request)
    returns (c: Completion)
    requires api.Valid() && board.Valid() && sid in api.stations && sid != "" && board.line.Some?
    modifies api, board, api.stations.Values
    ensures api.Valid() && board.Valid()
    ensures api.loaded == old(api.loaded) && api.lines == old(api.lines) && api.stations == old(api.stations)
    ensures board.line == old(board.line)
    ensures board.station == if lid in api.stations[sid].lines then api.stations[sid] else null
    ensures c == Thrown <==> Truthy(pname) && (board.station == null || !board.station.loaded)
    ensures board.platform.Some? <==>
              board.station != null && Truthy(pname) && board.station.loaded
              && Some(pname.value) in board.station.currentQueryPlatforms
    ensures board.platform.Some? ==> board.platform == pname
  {
    var st := api.stations[sid];
    board.SetStation(st, false);
    var echoed := if lid in st.lines then Some(sid) else None;
    OnSelectChangeStation(api, board, echoed, req, first);
    assert board.station == if lid in st.lines then st else null;
    assert board.platform == None;
    if Truthy(pname) {
      c := RestorePlatform(api, board, pname.value, req, second);
    } else {
      c := Completed;
    }
  }

  /** The window-load handler's line step for a known line `lid`: select it,
      run the line handler, then the station step when `sid` is a truthy
      known station id. */
  method RestoreLine(api: TflApi, board: Board, lid: string, sid: Option<string>, pname: Option<string>,
                     req: Request, first: Request, second: Request)
    returns (c: Completion)
    requires api.Valid() && board.Valid() && lid in api.lines && lid != ""
    modifies api, board, api.stations.Values
    ensures api.Valid() && board.Valid()
    ensures api.loaded == old(api.loaded) && api.lines == old(api.lines) && api.stations == old(api.stations)
    ensures board.line == Some(api.lines[lid])
    ensures board.station != null <==>
              Truthy(sid) && sid.value in api.stations && lid in api.stations[sid.value].lines
    ensures board.station != null ==> board.station == api.stations[sid.value]
    ensures c == Thrown <==>
              Truthy(sid) && sid.value in api.stations && Truthy(pname)
              && (board.station == null || !board.station.loaded)
    ensures board.platform.Some? <==>
              board.station != null && Truthy(pname) && board.station.loaded
              && Some(pname.value) in board.station.currentQueryPlatforms
    ensures board.platform.Some? ==> board.platform == pname
  {
    board.SetLine(Some(api.lines[lid]), false);
    OnSelectChangeLine(api, board, lid, req);
    if Truthy(sid) && sid.value in api.stations {
      c := RestoreStation(api, board, lid, sid.value, pname, req, first, second);
    } else {
      c := Completed;
    }
  }

  /** The window-load handler once the catalog has loaded, on the board as
      the page made it: with the line id, station id and platform read from
      the path, select the line if it is known, then the station if it is
      known (its select shows it only when it serves the line), then, for a
      platform in the path, wait for the station's platforms (`second`; the
      station handler's own load is `first`) and select the platform if it is
      among them; finally write the path back. */
  method Restore(api: TflApi, board: Board, req: Request, first: Request, second: Request)
    returns (c: Completion)
    requires api.loaded && api.Valid()
    requires board.Valid() && board.line == None && board.station == null && board.platform == None
    modifies api, board, api.stations.Values
    ensures board.Valid() && api.Valid()
    ensures api.loaded == old(api.loaded) && api.lines == old(api.lines) && api.stations == old(api.stations)
    ensures var lid := Segment(PathSegments(old(board.location)), 0);
            && (board.line.Some? <==> Truthy(lid) && lid.value in api.lines)
            && (board.line.Some? ==> board.line == Some(api.lines[lid.value]))
    ensures var segs := PathSegments(old(board.location));
            var sid := Segment(segs, 1);
            board.station != null <==>
              board.line.Some? && Truthy(sid) && sid.value in api.stations
              && Segment(segs, 0).value in api.stations[sid.value].lines
    ensures board.station != null ==> board.station == api.stations[Segment(PathSegments(old(board.location)), 1).value]
    ensures var segs := PathSegments(old(board.location));
            var sid := Segment(segs, 1);
            c == Thrown <==>
              board.line.Some? && Truthy(sid) && sid.value in api.stations && Truthy(Segment(segs, 2))
              && (board.station == null || !board.station.loaded)
    ensures var pname := Segment(PathSegments(old(board.location)), 2);
            board.platform.Some? <==>
              board.station != null && Truthy(pname) && board.station.loaded
              && Some(pname.value) in board.station.currentQueryPlatforms
    ensures board.platform.Some? ==> board.platform == Segment(PathSegments(old(board.location)), 2)
    ensures c == Completed ==> board.location == board.Path()
  {
    board.UpdateBoardText(api, req);
    var segs := PathSegments(board.location);
    var lineId, stationId, platformName := Segment(segs, 0), Segment(segs, 1), Segment(segs, 2);
    if Truthy(lineId) && lineId.value in api.lines {
      c := RestoreLine(api, board, lineId.value, stationId, platformName, req, first, second);
      if c == Thrown {
        return;
      }
    }
    board.UpdateUrl();
    c := Completed;
  }
}
