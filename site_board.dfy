/**
 * The page side of the earlier script (site/static/js/index.js): the
 * `url_paramaters` dictionary and `set_url_param`, the state of
 * `BoardDomHandler` and its poll loop, whose staleness guard compares the
 * new request time with the last one applied, the option-select handlers,
 * and the restore of a selection from the query parameters.
 *
 * The restore code sits after a wait on the exported `TFL_API.loaded`,
 * which is a copy of `false` taken when the module was built; the wait never
 * ends, so the restore below is the code as written after it and is never
 * reached in the page.
 */
module SiteBoard {
  import opened Wrappers
  import opened Js
  import opened Arrivals
  import opened Rendering
  import opened Requests
  import opened Catalog
  import opened SiteApi

  // ---------------------------------------------------------- parameters

  /** One own property of `url_paramaters`; `None` is `null`. */
  datatype Entry = Entry(key: string, value: Option<string>)

  function Keys(entries: seq<Entry>): (ks: seq<string>)
    ensures |ks| == |entries| && forall i :: 0 <= i < |entries| ==> ks[i] == entries[i].key
    decreases |entries|
  {
    if entries == [] then [] else [entries[0].key] + Keys(entries[1..])
  }

  /** An object has each key once. */
  predicate UniqueKeys(entries: seq<Entry>) {
    forall i, j :: 0 <= i < j < |entries| ==> entries[i].key != entries[j].key
  }

  /** `url_paramaters[k]`: `None` for a missing key (`undefined`). */
  function ValueOf(entries: seq<Entry>, k: string): Option<Option<string>>
    decreases |entries|
  {
    if entries == [] then None
    else if entries[0].key == k then Some(entries[0].value)
    else ValueOf(entries[1..], k)
  }

  /** `url_paramaters[k] = v`: an existing key keeps its place, a new key
      goes last. */
  function Assign(entries: seq<Entry>, k: string, v: Option<string>): seq<Entry>
    decreases |entries|
  {
    if entries == [] then [Entry(k, v)]
    else if entries[0].key == k then [Entry(k, v)] + entries[1..]
    else [entries[0]] + Assign(entries[1..], k, v)
  }

  /** After the assignment `k` holds `v`. */
  lemma {:induction false} AssignValue(entries: seq<Entry>, k: string, v: Option<string>)
    ensures ValueOf(Assign(entries, k, v), k) == Some(v)
    decreases |entries|
  {
    if entries != [] && entries[0].key != k {
      AssignValue(entries[1..], k, v);
      assert Assign(entries, k, v)[1..] == Assign(entries[1..], k, v);
    }
  }

  /** Every other key holds what it held before the assignment. */
  lemma {:induction false} AssignOthers(entries: seq<Entry>, k: string, v: Option<string>, j: string)
    requires j != k
    ensures ValueOf(Assign(entries, k, v), j) == ValueOf(entries, j)
    decreases |entries|
  {
    if entries != [] {
      if entries[0].key != k {
        AssignOthers(entries[1..], k, v, j);
        assert Assign(entries, k, v)[1..] == Assign(entries[1..], k, v);
      } else {
        assert Assign(entries, k, v)[1..] == entries[1..];
      }
    }
  }

  /** The keys keep their order, with `k` added last when it is new. */
  lemma {:induction false} AssignKeys(entries: seq<Entry>, k: string, v: Option<string>)
    ensures Keys(Assign(entries, k, v)) == if k in Keys(entries) then Keys(entries) else Keys(entries) + [k]
    decreases |entries|
  {
    if entries != [] {
      var a := Assign(entries, k, v);
      assert Keys(entries) == [entries[0].key] + Keys(entries[1..]);
      assert Keys(a) == [a[0].key] + Keys(a[1..]);
      if entries[0].key != k {
        AssignKeys(entries[1..], k, v);
        assert a[1..] == Assign(entries[1..], k, v);
        assert k in Keys(entries) <==> k in Keys(entries[1..]);
      } else {
        assert a[1..] == entries[1..];
      }
    }
  }

  /** An assignment keeps each key of the object there once. */
  lemma AssignUnique(entries: seq<Entry>, k: string, v: Option<string>)
    requires UniqueKeys(entries)
    ensures UniqueKeys(Assign(entries, k, v))
  {
    AssignKeys(entries, k, v);
    var a := Assign(entries, k, v);
    forall i, j | 0 <= i < j < |a| ensures a[i].key != a[j].key {
      assert Keys(a)[i] == a[i].key && Keys(a)[j] == a[j].key;
      if j < |entries| {
        assert Keys(entries)[i] == entries[i].key && Keys(entries)[j] == entries[j].key;
      } else {
        assert Keys(entries)[i] == entries[i].key;
        assert Keys(a)[i] in Keys(entries);
      }
    }
  }

  /** The properties of a fresh `url_paramaters` after the query's pairs
      are copied in, in order, a later duplicate overwriting in place. */
  function FromPairs(pairs: seq<(string, string)>): seq<Entry>
    decreases |pairs|
  {
    if pairs == [] then []
    else Assign(FromPairs(pairs[..|pairs| - 1]), pairs[|pairs| - 1].0, Some(pairs[|pairs| - 1].1))
  }

  /** The value the last pair with key `k` carries, if any. */
  function LastValue(pairs: seq<(string, string)>, k: string): Option<Option<string>>
    decreases |pairs|
  {
    if pairs == [] then None
    else if pairs[|pairs| - 1].0 == k then Some(Some(pairs[|pairs| - 1].1))
    else LastValue(pairs[..|pairs| - 1], k)
  }

  /** Copying the pairs in gives each key once, holding its last value. */
  lemma {:induction false} FromPairsSpec(pairs: seq<(string, string)>, k: string)
    ensures UniqueKeys(FromPairs(pairs))
    ensures ValueOf(FromPairs(pairs), k) == LastValue(pairs, k)
    decreases |pairs|
  {
    if pairs != [] {
      var init := pairs[..|pairs| - 1];
      var last := pairs[|pairs| - 1];
      FromPairsSpec(init, k);
      AssignUnique(FromPairs(init), last.0, Some(last.1));
      if last.0 == k {
        AssignValue(FromPairs(init), k, Some(last.1));
      } else {
        AssignOthers(FromPairs(init), last.0, Some(last.1), k);
      }
    }
  }

  /** Whether `set_url_param` writes an entry: its value is neither `null`
      nor "". */
  predicate Listed(e: Entry) {
    e.value.Some? && e.value.value != ""
  }

  /** The `key=value` pieces of the listed entries, in property order. */
  function Rendered(entries: seq<Entry>): seq<string>
    decreases |entries|
  {
    if entries == [] then []
    else
      var last := entries[|entries| - 1];
      Rendered(entries[..|entries| - 1]) + if Listed(last) then [last.key + "=" + last.value.value] else []
  }

  /** The query string `set_url_param` writes. */
  function Query(entries: seq<Entry>): string {
    "?" + Join(Rendered(entries), '&')
  }

  /** A piece is rendered exactly when it is the `key=value` of a listed
      entry. */
  lemma {:induction false} RenderedMembers(entries: seq<Entry>)
    ensures forall s :: s in Rendered(entries) <==>
              exists i :: 0 <= i < |entries| && Listed(entries[i]) && s == entries[i].key + "=" + entries[i].value.value
    decreases |entries|
  {
    if entries != [] {
      var init := entries[..|entries| - 1];
      RenderedMembers(init);
      forall s ensures s in Rendered(entries) <==>
                 exists i :: 0 <= i < |entries| && Listed(entries[i]) && s == entries[i].key + "=" + entries[i].value.value
      {
        if s in Rendered(init) {
          var i :| 0 <= i < |init| && Listed(init[i]) && s == init[i].key + "=" + init[i].value.value;
          assert entries[i] == init[i];
        }
        if exists i :: 0 <= i < |entries| && Listed(entries[i]) && s == entries[i].key + "=" + entries[i].value.value {
          var i :| 0 <= i < |entries| && Listed(entries[i]) && s == entries[i].key + "=" + entries[i].value.value;
          if i < |init| {
            assert init[i] == entries[i];
          }
        }
      }
    }
  }

  /** The query string starts with '?', and when no key or value holds an
      '&' it splits back into the pieces of the listed entries. */
  lemma QueryParses(entries: seq<Entry>)
    requires forall i :: 0 <= i < |entries| ==> '&' !in entries[i].key && (entries[i].value.Some? ==> '&' !in entries[i].value.value)
    ensures Query(entries)[0] == '?'
    ensures Rendered(entries) != [] ==> Split(Query(entries)[1..], '&') == Rendered(entries)
  {
    RenderedMembers(entries);
    if Rendered(entries) != [] {
      forall j | 0 <= j < |Rendered(entries)| ensures '&' !in Rendered(entries)[j] {
        var s := Rendered(entries)[j];
        assert s in Rendered(entries);
        var i :| 0 <= i < |entries| && Listed(entries[i]) && s == entries[i].key + "=" + entries[i].value.value;
        assert s == entries[i].key + "=" + entries[i].value.value;
      }
      assert Query(entries)[1..] == Join(Rendered(entries), '&');
      SplitJoin(Rendered(entries), '&');
    }
  }

  /** One more entry extends the query string as the loop of
      `set_url_param` does: a listed entry adds its `key=value`, after a `&`
      unless it is the first. */
  lemma QueryStep(prefix: seq<Entry>, e: Entry)
    ensures Query(prefix + [e]) ==
              if !Listed(e) then Query(prefix)
              else (if Query(prefix) != "?" then Query(prefix) + "&" else Query(prefix)) + e.key + "=" + e.value.value
  {
    var all := prefix + [e];
    assert all[..|all| - 1] == prefix;
    var before := Rendered(prefix);
    if Listed(e) {
      var piece := e.key + "=" + e.value.value;
      assert Rendered(all) == before + [piece];
      JoinSnoc(before, piece, '&');
      if before != [] {
        assert before[0] != "" by {
          RenderedMembers(prefix);
          assert before[0] in before;
        }
        JoinNonEmpty(before, '&');
        assert Query(prefix) != "?" by {
          assert |Query(prefix)| == 1 + |Join(before, '&')|;
        }
      }
    } else {
      assert Rendered(all) == before;
    }
  }

  /** `url_paramaters` and the query string in the address bar. */
  class UrlParams {
    var entries: seq<Entry>
    var search: string

    ghost predicate Valid()
      reads this
    {
      UniqueKeys(entries)
    }

    /** The loop over `new URLSearchParams(window.location.search)`, with
        `pairs` the parsed pairs of `search`. */
    constructor(search0: string, pairs: seq<(string, string)>)
      ensures entries == FromPairs(pairs) && search == search0
      ensures Valid()
    {
      var e: seq<Entry> := [];
      for i := 0 to |pairs|
        invariant e == FromPairs(pairs[..i]) && UniqueKeys(e)
      {
        assert pairs[..i + 1][..i] == pairs[..i];
        AssignUnique(e, pairs[i].0, Some(pairs[i].1));
        e := Assign(e, pairs[i].0, Some(pairs[i].1));
      }
      assert pairs[..|pairs|] == pairs;
      entries := e;
      search := search0;
    }

    /** `set_url_param(k, v)`: assign, then write the listed entries as
        `?k1=v1&k2=v2...` into the address bar. */
    method Set(k: string, v: Option<string>)
      requires Valid()
      modifies this
      ensures Valid()
      ensures entries == Assign(old(entries), k, v)
      ensures search == Query(entries)
    {
      AssignUnique(entries, k, v);
      var all := Assign(entries, k, v);
      var asString := RenderQuery(all);
      entries, search := all, asString;
    }
  }

  /** The loop of `set_url_param` that builds the query string. */
  method RenderQuery(all: seq<Entry>) returns (asString: string)
    ensures asString == Query(all)
  {
    asString := "?";
    for i := 0 to |all|
      invariant asString == Query(all[..i])
    {
      var e := all[i];
      assert all[..i + 1] == all[..i] + [e];
      QueryStep(all[..i], e);
      if Listed(e) {
        if asString != "?" {
          asString := asString + "&";
        }
        asString := asString + e.key + "=" + e.value.value;
      }
    }
    assert all[..|all|] == all;
  }

  // ------------------------------------------------------------ the poll

  /** The board after one run of `query_fn` that reached `getTimetable`: the
      screen, `last_query_time`, and the delay of the timer left pending
      (`None` when an exception ended the loop). */
  datatype SitePoll = SitePoll(screen: Screen, last: Option<Stamp>, pending: Option<int>)

  /** What `query_fn` does with what `getTimetable` settled to: anything but
      a timetable throws at `arrivals.length`; an empty one shows "No trains
      arriving" and throws at `arrivals[0].request_time`; one whose first
      request time is no later than the last applied is skipped and polled
      again in five seconds; any other is shown and polled again after the
      next delay. */
  function AfterTimetable(t: Timetable, screen: Screen, last: Option<Stamp>): SitePoll {
    if !t.Timetable? then SitePoll(screen, last, None)
    else if t.arrivals == [] then SitePoll(NoTrains, last, None)
    else if last.Some? && StampAtMost(t.arrivals[0].requestTime, last.value) then SitePoll(screen, last, Some(5))
    else SitePoll(ShowArrivals(screen, t.arrivals), Some(t.arrivals[0].requestTime), Some(NextDelay(t.arrivals)))
  }

  /** The loop stops exactly on an exception or an empty timetable; a stale
      timetable leaves the board alone for five seconds; an applied one has a
      later request time than the one before and is polled again after 10 or
      30 seconds. */
  lemma AfterTimetableSpec(t: Timetable, screen: Screen, last: Option<Stamp>)
    ensures AfterTimetable(t, screen, last).pending.None? <==> !t.Timetable? || t.arrivals == []
    ensures AfterTimetable(t, screen, last).pending.Some? ==> AfterTimetable(t, screen, last).pending.value in {5, 10, 30}
    ensures t.Timetable? && t.arrivals != [] && last.Some? && StampAtMost(t.arrivals[0].requestTime, last.value) ==>
              AfterTimetable(t, screen, last) == SitePoll(screen, last, Some(5))
    ensures AfterTimetable(t, screen, last).last != last ==>
              t.Timetable? && t.arrivals != [] && AfterTimetable(t, screen, last).last == Some(t.arrivals[0].requestTime)
              && AfterTimetable(t, screen, last).pending.value in {10, 30}
              && (last.Some? && last.value.At? && t.arrivals[0].requestTime.At? ==>
                    t.arrivals[0].requestTime.ms > last.value.ms)
  {
    if t.Timetable? && t.arrivals != [] {
      NextDelaySpec(t.arrivals);
    }
  }

  /** One run of `query_fn` that reaches `station.getTimetable(line,
      platform)`. */
  function Polling(api: SiteApi, station: Station, line: Option<Line>, platform: Option<string>,
                   fetch: nat -> Response<Json<RawArrival>>, screen: Screen, last: Option<Stamp>): SitePoll
    reads api, station
  {
    AfterTimetable(
      SiteSettled(station.loaded, station.id, line, platform, api.stations.Keys, api.loaded, RetryOutcome(fetch).result),
      screen, last)
  }

  predicate Increasing(s: seq<int>) {
    forall i, j :: 0 <= i < j < |s| ==> s[i] < s[j]
  }

  /** A time later than every applied one keeps them increasing. */
  lemma AppendIncreasing(s: seq<int>, x: int)
    requires Increasing(s) && (s != [] ==> s[|s| - 1] < x)
    ensures Increasing(s + [x])
  {
    forall i, j | 0 <= i < j < |s| + 1 ensures (s + [x])[i] < (s + [x])[j] {
      if j == |s| && i < |s| - 1 {
        assert s[i] < s[|s| - 1];
      }
    }
  }

  /** The id as `set_url_param` receives it: `x ? x.id : null`. */
  function LineParam(l: Option<Line>): Option<string> {
    if l.Some? then Some(l.value.id) else None
  }

  function StationParam(st: Station?): Option<string> {
    if st != null then Some(st.id) else None
  }

  // --------------------------------------------------------------- board

  /** `BoardDomHandler` of the earlier script, writing the selection to
      `params`. */
  class SiteBoard {
    var line: Option<Line>
    var station: Station?
    var platform: Option<string>
    var changed: bool
    var pending: Option<int>
    var lastQueryTime: Option<Stamp>
    var screen: Screen
    const params: UrlParams
    /** The request times, in milliseconds, of the updates applied so far. */
    ghost var applied: seq<int>

    /** The applied request times strictly increase, and `last_query_time`
        is the latest of them. */
    ghost predicate Valid()
      reads this, params
    {
      && params.Valid()
      && Increasing(applied)
      && (applied == [] <==> lastQueryTime.None?)
      && (applied != [] ==> lastQueryTime == Some(At(applied[|applied| - 1])))
    }

    predicate Selected()
      reads this
    {
      line.Some? && station != null && Truthy(platform)
    }

    function PromptScreen(): Screen
      reads this
    {
      Prompt(if line.Some? then Some(line.value.name) else None, station != null)
    }

    /** The handler as the page makes it, writing to `p`. */
    constructor(p: UrlParams)
      requires p.Valid()
      ensures line == None && station == null && platform == None && changed && pending == None
      ensures lastQueryTime == None && screen == Cleared && params == p
      ensures Valid()
    {
      line := None;
      station := null;
      platform := None;
      changed := true;
      pending := None;
      lastQueryTime := None;
      screen := Cleared;
      params := p;
      applied := [];
    }

    /** `setPlatform(val)`. */
    method SetPlatform(val: Option<string>)
      requires Valid()
      modifies this, params
      ensures Valid()
      ensures platform == val && changed && line == old(line) && station == old(station)
      ensures params.entries == Assign(old(params.entries), "platform", val)
      ensures params.search == Query(params.entries)
      ensures pending == old(pending) && lastQueryTime == old(lastQueryTime) && screen == old(screen)
      ensures applied == old(applied)
    {
      platform := val;
      params.Set("platform", val);
      changed := true;
    }

    /** `setStation(val)`: also clears the platform. */
    method SetStation(val: Station?)
      requires Valid()
      modifies this, params
      ensures Valid()
      ensures station == val && platform == None && changed && line == old(line)
      ensures params.entries == Assign(Assign(old(params.entries), "station", StationParam(val)), "platform", None)
      ensures params.search == Query(params.entries)
      ensures pending == old(pending) && lastQueryTime == old(lastQueryTime) && screen == old(screen)
      ensures applied == old(applied)
    {
      station := val;
      params.Set("station", StationParam(val));
      SetPlatform(None);
      changed := true;
    }

    /** `setLine(val)`: also clears the station and the platform. */
    method SetLine(val: Option<Line>)
      requires Valid()
      modifies this, params
      ensures Valid()
      ensures line == val && station == null && platform == None && changed
      ensures params.entries ==
                Assign(Assign(Assign(old(params.entries), "line", LineParam(val)), "station", None), "platform", None)
      ensures params.search == Query(params.entries)
      ensures pending == old(pending) && lastQueryTime == old(lastQueryTime) && screen == old(screen)
      ensures applied == old(applied)
    {
      line := val;
      params.Set("line", LineParam(val));
      SetStation(null);
      changed := true;
    }

    /** `query_fn`: a missing station throws; otherwise the station's
        timetable is read and acted on as `AfterTimetable` says. It runs
        with no timer left. */
    method QueryFn(api: SiteApi, fetch: nat -> Response<Json<RawArrival>>) returns (c: Completion)
      requires Valid() && pending.None?
      modifies this
      ensures Valid()
      ensures station == null ==> c == Thrown && screen == old(screen) && lastQueryTime == old(lastQueryTime) && pending == None
      ensures station != null ==>
                var p := Polling(api, station, line, platform, fetch, old(screen), old(lastQueryTime));
                screen == p.screen && lastQueryTime == p.last && pending == p.pending
                && (c == Thrown <==> p.pending.None?)
      ensures line == old(line) && station == old(station) && platform == old(platform) && changed == old(changed)
    {
      if station == null {
        return Thrown;
      }
      var t := api.GetTimetable(station, line, platform, fetch);
      SiteSettledSpec(station.loaded, station.id, line, platform, api.stations.Keys, api.loaded, RetryOutcome(fetch).result);
      c := ApplyTimetable(t);
    }

    /** What `query_fn` does with the timetable it read. */
    method ApplyTimetable(t: Timetable) returns (c: Completion)
      requires Valid() && pending.None?
      requires t.Timetable? ==> forall a :: a in t.arrivals ==> a.requestTime.At?
      modifies this
      ensures Valid()
      ensures var p := AfterTimetable(t, old(screen), old(lastQueryTime));
              screen == p.screen && lastQueryTime == p.last && pending == p.pending
              && (c == Thrown <==> p.pending.None?)
      ensures line == old(line) && station == old(station) && platform == old(platform) && changed == old(changed)
    {
      if !t.Timetable? {
        return Thrown;
      }
      var arrivals := t.arrivals;
      if arrivals == [] {
        screen := NoTrains;
        return Thrown;
      }
      if lastQueryTime.Some? && StampAtMost(arrivals[0].requestTime, lastQueryTime.value) {
        pending := Some(5);
        return Completed;
      }
      assert arrivals[0] in arrivals;
      var stamp := arrivals[0].requestTime;
      AppendIncreasing(applied, stamp.ms);
      lastQueryTime := Some(stamp);
      applied := applied + [stamp.ms];
      screen := ShowArrivals(screen, arrivals);
      pending := Some(NextDelay(arrivals));
      c := Completed;
    }

    /** `updateBoardText()`: with a line, a station and a platform selected
        and the selection changed, clear the board, drop the timer and poll
        at once; with the selection unchanged, nothing; with the selection
        incomplete, the prompt (any timer left running keeps running). */
    method UpdateBoardText(api: SiteApi, fetch: nat -> Response<Json<RawArrival>>)
      requires Valid()
      modifies this
      ensures Valid()
      ensures line == old(line) && station == old(station) && platform == old(platform)
      ensures !old(Selected()) ==>
                screen == old(PromptScreen()) && pending == old(pending) && changed == old(changed)
                && lastQueryTime == old(lastQueryTime)
      ensures old(Selected()) && !old(changed) ==>
                screen == old(screen) && pending == old(pending) && !changed && lastQueryTime == old(lastQueryTime)
      ensures old(Selected()) && old(changed) ==>
                var p := Polling(api, station, line, platform, fetch, Cleared, old(lastQueryTime));
                screen == p.screen && lastQueryTime == p.last && pending == p.pending && !changed
    {
      if Selected() {
        if changed {
          Refresh(api, fetch);
        }
      } else {
        screen := PromptScreen();
      }
    }

    /** The branch of `updateBoardText` for a changed, complete selection:
        clear the board, drop the timer and run `query_fn` at once. */
    method Refresh(api: SiteApi, fetch: nat -> Response<Json<RawArrival>>)
      requires Valid() && station != null
      modifies this
      ensures Valid()
      ensures line == old(line) && station == old(station) && platform == old(platform)
      ensures var p := Polling(api, station, line, platform, fetch, Cleared, old(lastQueryTime));
              screen == p.screen && lastQueryTime == p.last && pending == p.pending && !changed
    {
      changed, screen, pending := false, Cleared, None;
      var _ := QueryFn(api, fetch);
    }

    /** The poll timer fires: the timer is used up and `query_fn` runs. */
    method PollTimerFires(api: SiteApi, fetch: nat -> Response<Json<RawArrival>>) returns (c: Completion)
      requires Valid() && pending.Some?
      modifies this
      ensures Valid()
      ensures station == null ==> c == Thrown && screen == old(screen) && pending == None
      ensures station != null ==>
                var p := Polling(api, station, line, platform, fetch, old(screen), old(lastQueryTime));
                screen == p.screen && lastQueryTime == p.last && pending == p.pending
      ensures line == old(line) && station == old(station) && platform == old(platform) && changed == old(changed)
    {
      pending := None;
      c := QueryFn(api, fetch);
    }
  }

  // ------------------------------------------------------------ handlers

  /** `on_select_change_line` with the line select reporting `val`, which
      is "" or the id of one of the catalog's lines, the only options the
      select offers: the line is set (or cleared for ""), which clears the station and the
      platform, and the prompt for a station is shown. */
  method OnSelectChangeLine(api: SiteApi, board: SiteBoard, val: string, fetch: nat -> Response<Json<RawArrival>>)
    requires board.Valid()
    requires val == "" || val in api.lines
    modifies board, board.params
    ensures board.Valid()
    ensures board.line == (if val == "" then None else LineById(api.lines, val))
    ensures board.line.Some? <==> val != ""
    ensures board.station == null && board.platform == None && board.changed
    ensures board.screen == board.PromptScreen()
    ensures board.pending == old(board.pending) && board.lastQueryTime == old(board.lastQueryTime)
  {
    if val == "" {
      board.SetLine(None);
    } else {
      board.SetLine(LineById(api.lines, val));
    }
    board.UpdateBoardText(api, fetch);
  }

  /** `on_select_change_station` with the station select reporting `val`
      (`None` when no option is chosen): "" clears the station; otherwise the
      station is set, the prompt shown and, with a line and a station
      selected, the station's platforms loaded with `load`. */
  method OnSelectChangeStation(api: SiteApi, board: SiteBoard, val: Option<string>,
                               fetch: nat -> Response<Json<RawArrival>>, load: nat -> Response<Json<RawArrival>>)
    requires board.Valid()
    modifies board, board.params, api.stations.Values
    ensures board.Valid()
    ensures board.station == (if val == Some("") then null else StationById(api.stations, val))
    ensures board.line == old(board.line) && board.platform == None && board.changed
    ensures board.screen == board.PromptScreen()
    ensures board.pending == old(board.pending) && board.lastQueryTime == old(board.lastQueryTime)
    ensures val != Some("") && board.line.Some? && board.station != null ==>
              (board.station.loaded <==> api.loaded && Iterable(RetryOutcome(load).result))
              && (board.station.loaded ==>
                    board.station.currentQueryPlatforms == BodyPlatforms(RetryOutcome(load).result.json))
  {
    if val == Some("") {
      board.SetStation(null);
      board.UpdateBoardText(api, fetch);
      return;
    }
    board.SetStation(StationById(api.stations, val));
    board.UpdateBoardText(api, fetch);
    if board.line.Some? && board.station != null {
      var _ := api.LoadPlatforms(board.station, board.line, load);
    }
  }

  /** `on_select_change_platform` with the platform select reporting `val`:
      "" clears the platform; otherwise the platform is set and the board
      updated, which starts the poll loop when the line and station are
      selected too. */
  method OnSelectChangePlatform(api: SiteApi, board: SiteBoard, val: string, fetch: nat -> Response<Json<RawArrival>>)
    requires board.Valid()
    modifies board, board.params
    ensures board.Valid()
    ensures board.platform == (if val == "" then None else Some(val))
    ensures board.line == old(board.line) && board.station == old(board.station)
    ensures val == "" ==> board.screen == board.PromptScreen() && board.pending == old(board.pending)
    ensures val != "" && (board.line.None? || board.station == null) ==>
              board.screen == board.PromptScreen() && board.pending == old(board.pending)
    ensures val != "" && board.line.Some? && board.station != null ==>
              var p := Polling(api, board.station, board.line, board.platform, fetch, Cleared, old(board.lastQueryTime));
              board.screen == p.screen && board.lastQueryTime == p.last && board.pending == p.pending
  {
    if val == "" {
      board.SetPlatform(None);
      board.UpdateBoardText(api, fetch);
      return;
    }
    board.SetPlatform(Some(val));
    board.UpdateBoardText(api, fetch);
  }

  /** A query parameter as the restore reads it: missing and `null` are
      both falsy. */
  function Param(entries: seq<Entry>, k: string): Option<string> {
    var v := ValueOf(entries, k);
    if v.Some? && v.value.Some? then v.value else None
  }

  /** The restore's platform step, once the station handler has run: wait
      for `reset_select_platform` (which throws for a missing station, and
      otherwise loads the platforms with `second`), then pick `pname` when
      it is among them. */
  method RestorePlatform(api: SiteApi, board: SiteBoard, pname: string,
                         fetch: nat -> Response<Json<RawArrival>>, second: nat -> Response<Json<RawArrival>>)
    returns (c: Completion)
    requires board.Valid() && board.line.Some? && board.platform == None && pname != ""
    requires board.station == null || board.station in api.stations.Values
    modifies board, board.params, api.stations.Values
    ensures board.Valid()
    ensures board.line == old(board.line) && board.station == old(board.station)
    ensures c == Thrown <==> board.station == null || !board.station.loaded
    ensures board.platform.Some? <==> c == Completed && Some(pname) in board.station.currentQueryPlatforms
    ensures board.platform.Some? ==> board.platform == Some(pname)
  {
    if board.station == null {
      return Thrown;
    }
    var loaded := api.LoadPlatforms(board.station, board.line, second);
    if loaded == Thrown {
      return Thrown;
    }
    if Some(pname) in board.station.currentQueryPlatforms {
      board.SetPlatform(Some(pname));
      OnSelectChangePlatform(api, board, pname, fetch);
    }
    c := Completed;
  }

  /** The restore's station step for a known station `sid`: select it, then
      run the station handler with what the filtered station select reports
      (the id when the station serves line `lid`, no option otherwise), then
      the platform step when `pname` is truthy. */
  method RestoreStation(api: SiteApi, board: SiteBoard, lid: string, sid: string, pname: Option<string>,
                        fetch: nat -> Response<Json<RawArrival>>, first: nat -> Response<Json<RawArrival>>,
                        second: nat -> Response<Json<RawArrival>>)
    returns (c: Completion)
    requires board.Valid() && sid in api.stations && sid != "" && board.line.Some?
    modifies board, board.params, api.stations.Values
    ensures board.Valid()
    ensures board.line == old(board.line)
    ensures board.station == if lid in api.stations[sid].lines then api.stations[sid] else null
    ensures c == Thrown <==> Truthy(pname) && (board.station == null || !board.station.loaded)
    ensures board.platform.Some? <==>
              board.station != null && Truthy(pname) && board.station.loaded
              && Some(pname.value) in board.station.currentQueryPlatforms
    ensures board.platform.Some? ==> board.platform == pname
  {
    var st := api.stations[sid];
    board.SetStation(st);
    var echoed := if lid in st.lines then Some(sid) else None;
    OnSelectChangeStation(api, board, echoed, fetch, first);
    assert board.station == if lid in st.lines then st else null;
    assert board.platform == None;
    if Truthy(pname) {
      c := RestorePlatform(api, board, pname.value, fetch, second);
    } else {
      c := Completed;
    }
  }

  /** The restore code after the wait for the catalog: with the line,
      station and platform read from the query parameters, select the line
      if it is known, then the station if it is known (its select shows it
      only when it serves the line), then, for a platform given, wait for
      the station's platforms (`second`; the station handler's own load is
      `first`) and select the platform if it is among them. */
  method Restore(api: SiteApi, board: SiteBoard, fetch: nat -> Response<Json<RawArrival>>,
                 first: nat -> Response<Json<RawArrival>>, second: nat -> Response<Json<RawArrival>>)
    returns (c: Completion)
    requires board.Valid() && board.line == None && board.station == null && board.platform == None
    modifies board, board.params, api.stations.Values
    ensures board.Valid()
    ensures var lid := Param(old(board.params.entries), "line");
            && (board.line.Some? <==> Truthy(lid) && lid.value in api.lines)
            && (board.line.Some? ==> board.line == Some(api.lines[lid.value]))
    ensures var sid := Param(old(board.params.entries), "station");
            board.station != null <==>
              board.line.Some? && Truthy(sid) && sid.value in api.stations
              && Param(old(board.params.entries), "line").value in api.stations[sid.value].lines
    ensures board.station != null ==> board.station == api.stations[Param(old(board.params.entries), "station").value]
    ensures var sid := Param(old(board.params.entries), "station");
            c == Thrown <==>
              board.line.Some? && Truthy(sid) && sid.value in api.stations && Truthy(Param(old(board.params.entries), "platform"))
              && (board.station == null || !board.station.loaded)
    ensures var pname := Param(old(board.params.entries), "platform");
            board.platform.Some? <==>
              board.station != null && Truthy(pname) && board.station.loaded
              && Some(pname.value) in board.station.currentQueryPlatforms
    ensures board.platform.Some? ==> board.platform == Param(old(board.params.entries), "platform")
  {
    var lineId := Param(board.params.entries, "line");
    var stationId := Param(board.params.entries, "station");
    var platformName := Param(board.params.entries, "platform");
    c := Completed;
    if Truthy(lineId) && lineId.value in api.lines {
      board.SetLine(Some(api.lines[lineId.value]));
      OnSelectChangeLine(api, board, lineId.value, fetch);
      if Truthy(stationId) && stationId.value in api.stations {
        c := RestoreStation(api, board, lineId.value, stationId.value, platformName, fetch, first, second);
      }
    }
  }
}
