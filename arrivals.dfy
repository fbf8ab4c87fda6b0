/**
 * Arrival records: the upstream REST and push shapes, the normalised
 * `UndergroundLine_Arrival` both scripts build from them, the ascending sort
 * by seconds-to-station (`arrivals.sort((a, b) => a.time_to_station -
 * b.time_to_station)`, a stable sort), the platform filters, and the
 * first-seen collection of platform names used by platform discovery.
 */
module Arrivals {
  import opened Wrappers
  import Requests

  /** A `Date` made by `new Date(x)`: a valid instant in milliseconds, or the
      invalid date that `new Date(undefined)` gives. */
  datatype Stamp = At(ms: int) | InvalidDate

  /** `a <= b` on two `Date` objects compares their numeric values; the
      invalid date is NaN, and every comparison with NaN is false. */
  predicate StampAtMost(a: Stamp, b: Stamp) {
    a.At? && b.At? && a.ms <= b.ms
  }

  /** What the `vehicle_id` field of an arrival holds: nothing, a vehicle
      identifier, or (through the poll path of the later script) the
      snapshot's read timestamp. */
  datatype Vehicle = NoVehicle | VehicleText(text: string) | ReadStamp(ms: int)

  /** One record of `GET Line/{line}/Arrivals/{station}`; timestamps are
      already in milliseconds, `platformName` may be JSON `null`. */
  datatype RawArrival = RawArrival(
    id: string,
    platformName: Option<string>,
    currentLocation: string,
    destinationNaptan: string,
    towards: string,
    timeToStation: int,
    expectedArrival: int,
    timingRead: int)

  /** One record of a push-channel `showPredictions` batch. */
  datatype PushArrival = PushArrival(
    id: string,
    lineId: string,
    naptanId: string,
    platformName: Option<string>,
    currentLocation: string,
    destinationNaptanId: string,
    towards: string,
    timeToStation: int,
    expectedArrival: int,
    timingRead: int,
    vehicle: Option<string>)

  /** `UndergroundLine_Arrival`. The line, the station and the destination
      are catalog references, kept here as the catalog ids they resolve to
      (`None` where the lookup gave `undefined`). */
  datatype Arrival = Arrival(
    id: string,
    line: Option<string>,
    station: Option<string>,
    platform: Option<string>,
    currentLoc: string,
    destination: Option<string>,
    towards: string,
    timeToStation: int,
    expected: Stamp,
    vehicle: Vehicle,
    requestTime: Stamp)

  /** What `getTimetable` settles to: `undefined` (station or line not
      loaded), `null` (no response), the arrivals, or an exception. */
  datatype Timetable = NotLoaded | NoResponse | Timetable(arrivals: seq<Arrival>) | TimetableThrew

  // ------------------------------------------------------------- sorting

  predicate SortedByTts(s: seq<Arrival>) {
    forall i, j :: 0 <= i < j < |s| ==> s[i].timeToStation <= s[j].timeToStation
  }

  /** Places `x` in front of the first element that is not sooner than it. */
  function Insert(x: Arrival, s: seq<Arrival>): seq<Arrival> {
    if s == [] then [x]
    else if x.timeToStation <= s[0].timeToStation then [x] + s
    else [s[0]] + Insert(x, s[1..])
  }

  /** `Array.prototype.sort` with the comparator `a.time_to_station -
      b.time_to_station`: ascending and stable. */
  function SortByTts(s: seq<Arrival>): seq<Arrival> {
    if s == [] then [] else Insert(s[0], SortByTts(s[1..]))
  }

  /** Every arrival of `s` is due no sooner than `b` seconds. */
  predicate NoSoonerThan(s: seq<Arrival>, b: int) {
    forall i :: 0 <= i < |s| ==> b <= s[i].timeToStation
  }

  lemma {:induction false} InsertNoSooner(x: Arrival, s: seq<Arrival>, b: int)
    requires NoSoonerThan(s, b) && b <= x.timeToStation
    ensures NoSoonerThan(Insert(x, s), b)
    decreases |s|
  {
    if s != [] && x.timeToStation > s[0].timeToStation {
      InsertNoSooner(x, s[1..], b);
    }
  }

  lemma {:induction false} InsertSorted(x: Arrival, s: seq<Arrival>)
    requires SortedByTts(s)
    ensures SortedByTts(Insert(x, s))
    decreases |s|
  {
    if s == [] {
    } else if x.timeToStation <= s[0].timeToStation {
      var r := [x] + s;
      forall i, j | 0 <= i < j < |r| ensures r[i].timeToStation <= r[j].timeToStation {
        assert r[j] == s[j - 1];
        if i > 0 { assert r[i] == s[i - 1]; }
      }
    } else {
      var rest := s[1..];
      InsertSorted(x, rest);
      InsertNoSooner(x, rest, s[0].timeToStation);
      var t := Insert(x, rest);
      var r := [s[0]] + t;
      forall i, j | 0 <= i < j < |r| ensures r[i].timeToStation <= r[j].timeToStation {
        assert r[j] == t[j - 1];
        if i > 0 { assert r[i] == t[i - 1]; }
      }
    }
  }

  lemma {:induction false} InsertPermutes(x: Arrival, s: seq<Arrival>)
    ensures multiset(Insert(x, s)) == multiset(s) + multiset{x}
    decreases |s|
  {
    if s != [] && x.timeToStation > s[0].timeToStation {
      InsertPermutes(x, s[1..]);
      assert s == [s[0]] + s[1..];
    }
  }

  /** The sort yields an ascending permutation of its input. */
  lemma {:induction false} SortByTtsCorrect(s: seq<Arrival>)
    ensures SortedByTts(SortByTts(s))
    ensures multiset(SortByTts(s)) == multiset(s)
    ensures |SortByTts(s)| == |s|
    decreases |s|
  {
    SortOrders(s);
    SortPermutes(s);
    assert |SortByTts(s)| == |multiset(SortByTts(s))|;
  }

  lemma {:induction false} SortOrders(s: seq<Arrival>)
    ensures SortedByTts(SortByTts(s))
    decreases |s|
  {
    if s != [] {
      SortOrders(s[1..]);
      InsertSorted(s[0], SortByTts(s[1..]));
    }
  }

  lemma ConsMultiset(s: seq<Arrival>)
    requires s != []
    ensures multiset(s) == multiset(s[1..]) + multiset{s[0]}
  {
    assert s == [s[0]] + s[1..];
  }

  lemma {:induction false} SortPermutes(s: seq<Arrival>)
    ensures multiset(SortByTts(s)) == multiset(s)
    decreases |s|
  {
    if s != [] {
      SortPermutes(s[1..]);
      InsertPermutes(s[0], SortByTts(s[1..]));
      assert SortByTts(s) == Insert(s[0], SortByTts(s[1..]));
      ConsMultiset(s);
    }
  }

  /** The arrivals of `s` due in exactly `k` seconds, in their order in `s`. */
  function DueIn(s: seq<Arrival>, k: int): seq<Arrival> {
    if s == [] then []
    else (if s[0].timeToStation == k then [s[0]] else []) + DueIn(s[1..], k)
  }

  lemma DueInCons(a: Arrival, t: seq<Arrival>, k: int)
    ensures DueIn([a] + t, k) == (if a.timeToStation == k then [a] else []) + DueIn(t, k)
  {
    assert ([a] + t)[0] == a && ([a] + t)[1..] == t;
  }

  lemma {:induction false} InsertStable(x: Arrival, s: seq<Arrival>, k: int)
    ensures DueIn(Insert(x, s), k) == (if x.timeToStation == k then [x] else []) + DueIn(s, k)
    decreases |s|
  {
    if s == [] {
      DueInCons(x, [], k);
      assert [x] + [] == [x];
    } else if x.timeToStation <= s[0].timeToStation {
      DueInCons(x, s, k);
    } else {
      var rest := Insert(x, s[1..]);
      InsertStable(x, s[1..], k);
      DueInCons(s[0], rest, k);
      DueInCons(s[0], s[1..], k);
      assert s == [s[0]] + s[1..];
      if s[0].timeToStation == k {
        assert x.timeToStation != k;
        assert DueIn(rest, k) == DueIn(s[1..], k);
      } else {
        assert DueIn(Insert(x, s), k) == DueIn(rest, k);
        assert DueIn(s, k) == DueIn(s[1..], k);
      }
    }
  }

  /** The sort is stable: arrivals due at the same time keep their order. */
  lemma {:induction false} SortByTtsStable(s: seq<Arrival>, k: int)
    ensures DueIn(SortByTts(s), k) == DueIn(s, k)
    decreases |s|
  {
    if s != [] {
      SortByTtsStable(s[1..], k);
      InsertStable(s[0], SortByTts(s[1..]), k);
    }
  }

  // ------------------------------------------------------- normalisation

  /** Which script built the arrival: the two poll paths differ. */
  datatype Script = StaticScript | SiteScript

  /** What a poll of one station for one platform knows besides the records:
      the line and station polled, the platform asked for and the ids of the
      catalog's stations (for the destination lookup). */
  datatype PollContext = PollContext(lineId: string, stationId: string, platform: Option<string>, known: set<string>)

  /** `dictionary[id]` as a catalog reference: present only for a known id. */
  function Lookup(known: set<string>, id: string): (r: Option<string>)
    ensures r.Some? <==> id in known
    ensures r.Some? ==> r.value == id
  {
    if id in known then Some(id) else None
  }

  /** The arrival the poll path of `getTimetable` builds from one record. The
      later script passes eleven arguments to the twelve-parameter
      constructor, so the snapshot's read time lands in `vehicle_id` and
      `request_time` is `new Date(undefined)`; the earlier script's
      constructor takes eleven and keeps the read time as `request_time`. */
  function Polled(r: RawArrival, ctx: PollContext, script: Script): (a: Arrival)
    ensures a.platform == ctx.platform && a.timeToStation == r.timeToStation
    ensures a.line == Some(ctx.lineId) && a.station == Some(ctx.stationId)
    ensures a.destination == Lookup(ctx.known, r.destinationNaptan)
    ensures script == StaticScript ==> a.vehicle == ReadStamp(r.timingRead) && a.requestTime == InvalidDate
    ensures script == SiteScript ==> a.vehicle == NoVehicle && a.requestTime == At(r.timingRead)
  {
    Arrival(r.id, Some(ctx.lineId), Some(ctx.stationId), ctx.platform, r.currentLocation,
            Lookup(ctx.known, r.destinationNaptan), r.towards, r.timeToStation, At(r.expectedArrival),
            if script == StaticScript then ReadStamp(r.timingRead) else NoVehicle,
            if script == StaticScript then InvalidDate else At(r.timingRead))
  }

  /** The arrival the push handler builds from one record, with all twelve
      arguments: line, station and destination looked up in the catalog, the
      read time as `request_time`. */
  function Pushed(p: PushArrival, lineIds: set<string>, stationIds: set<string>): (a: Arrival)
    ensures a.line == Lookup(lineIds, p.lineId) && a.station == Lookup(stationIds, p.naptanId)
    ensures a.destination == Lookup(stationIds, p.destinationNaptanId)
    ensures a.platform == p.platformName && a.timeToStation == p.timeToStation
    ensures a.requestTime == At(p.timingRead)
    ensures a.vehicle == (if p.vehicle.Some? then VehicleText(p.vehicle.value) else NoVehicle)
  {
    Arrival(p.id, Lookup(lineIds, p.lineId), Lookup(stationIds, p.naptanId), p.platformName,
            p.currentLocation, Lookup(stationIds, p.destinationNaptanId), p.towards, p.timeToStation,
            At(p.expectedArrival), if p.vehicle.Some? then VehicleText(p.vehicle.value) else NoVehicle,
            At(p.timingRead))
  }

  /** The push batch with every record normalised, in batch order. */
  function AllPushed(batch: seq<PushArrival>, lineIds: set<string>, stationIds: set<string>): (r: seq<Arrival>)
    ensures |r| == |batch| && forall i :: 0 <= i < |batch| ==> r[i] == Pushed(batch[i], lineIds, stationIds)
    decreases |batch|
  {
    if batch == [] then []
    else AllPushed(batch[..|batch| - 1], lineIds, stationIds) + [Pushed(batch[|batch| - 1], lineIds, stationIds)]
  }

  /** The `for (let arrival of response)` loop of the push handler. */
  method NormaliseBatch(batch: seq<PushArrival>, lineIds: set<string>, stationIds: set<string>)
    returns (arrivals: seq<Arrival>)
    ensures arrivals == AllPushed(batch, lineIds, stationIds)
  {
    arrivals := [];
    for i := 0 to |batch|
      invariant arrivals == AllPushed(batch[..i], lineIds, stationIds)
    {
      assert batch[..i + 1][..i] == batch[..i];
      arrivals := arrivals + [Pushed(batch[i], lineIds, stationIds)];
    }
    assert batch[..|batch|] == batch;
  }

  // ------------------------------------------------------------- filtering

  /** The arrivals built from the records whose `platformName` is exactly the
      platform asked for, in record order (the poll loop of `getTimetable`). */
  function Matching(items: seq<RawArrival>, ctx: PollContext, script: Script): seq<Arrival>
    decreases |items|
  {
    if items == [] then []
    else
      var last := items[|items| - 1];
      Matching(items[..|items| - 1], ctx, script) + (if last.platformName == ctx.platform then [Polled(last, ctx, script)] else [])
  }

  /** An arrival is in the result exactly when a record on the platform asked
      for made it; so every arrival is on that platform. */
  lemma {:induction false} MatchingMembers(items: seq<RawArrival>, ctx: PollContext, script: Script)
    ensures forall a :: a in Matching(items, ctx, script) <==>
              exists k :: 0 <= k < |items| && items[k].platformName == ctx.platform && Polled(items[k], ctx, script) == a
    ensures forall a :: a in Matching(items, ctx, script) ==> a.platform == ctx.platform
    decreases |items|
  {
    if items != [] {
      var init := items[..|items| - 1];
      MatchingMembers(init, ctx, script);
      forall a ensures a in Matching(items, ctx, script) <==>
                 exists k :: 0 <= k < |items| && items[k].platformName == ctx.platform && Polled(items[k], ctx, script) == a
      {
        if a in Matching(init, ctx, script) {
          var k :| 0 <= k < |init| && init[k].platformName == ctx.platform && Polled(init[k], ctx, script) == a;
          assert items[k] == init[k];
        }
        if exists k :: 0 <= k < |items| && items[k].platformName == ctx.platform && Polled(items[k], ctx, script) == a {
          var k :| 0 <= k < |items| && items[k].platformName == ctx.platform && Polled(items[k], ctx, script) == a;
          if k < |init| {
            assert init[k] == items[k];
          }
        }
      }
    }
  }

  /** The poll loop of `getTimetable`: push an arrival for each record on the
      platform asked for, in record order. */
  method CollectMatching(items: seq<RawArrival>, ctx: PollContext, script: Script)
    returns (arrivals: seq<Arrival>)
    ensures arrivals == Matching(items, ctx, script)
  {
    arrivals := [];
    for i := 0 to |items|
      invariant arrivals == Matching(items[..i], ctx, script)
    {
      assert items[..i + 1][..i] == items[..i];
      if items[i].platformName == ctx.platform {
        arrivals := arrivals + [Polled(items[i], ctx, script)];
      }
    }
    assert items[..|items|] == items;
  }

  /** What `getTimetable` returns for a list of records: the matching
      arrivals sorted by seconds to the station. */
  function Timetabled(items: seq<RawArrival>, ctx: PollContext, script: Script): seq<Arrival> {
    SortByTts(Matching(items, ctx, script))
  }

  /** The timetable is sorted, is a permutation of the matching arrivals,
      and holds only arrivals on the platform asked for. */
  lemma TimetabledSpec(items: seq<RawArrival>, ctx: PollContext, script: Script)
    ensures SortedByTts(Timetabled(items, ctx, script))
    ensures multiset(Timetabled(items, ctx, script)) == multiset(Matching(items, ctx, script))
    ensures forall a :: a in Timetabled(items, ctx, script) ==> a.platform == ctx.platform
    ensures script == SiteScript ==> forall a :: a in Timetabled(items, ctx, script) ==> a.requestTime.At?
  {
    SortByTtsCorrect(Matching(items, ctx, script));
    MatchingMembers(items, ctx, script);
    forall a | a in Timetabled(items, ctx, script)
      ensures a in Matching(items, ctx, script)
    {
      assert a in multiset(Timetabled(items, ctx, script));
    }
  }

  /** `arrivals.filter(arrival => arrival.platform === platform)`. */
  function OnPlatform(arrivals: seq<Arrival>, platform: Option<string>): (r: seq<Arrival>)
    ensures forall a :: a in r <==> a in arrivals && a.platform == platform
    decreases |arrivals|
  {
    if arrivals == [] then []
    else (if arrivals[0].platform == platform then [arrivals[0]] else []) + OnPlatform(arrivals[1..], platform)
  }

  /** The filter keeps each arrival on the platform exactly as often as it
      occurs, and no other. */
  lemma {:induction false} OnPlatformCounts(arrivals: seq<Arrival>, platform: Option<string>)
    ensures forall a :: multiset(OnPlatform(arrivals, platform))[a] ==
              if a.platform == platform then multiset(arrivals)[a] else 0
    decreases |arrivals|
  {
    if arrivals != [] {
      var head := if arrivals[0].platform == platform then [arrivals[0]] else [];
      OnPlatformCounts(arrivals[1..], platform);
      assert arrivals == [arrivals[0]] + arrivals[1..];
      assert multiset(arrivals) == multiset{arrivals[0]} + multiset(arrivals[1..]);
      assert multiset(OnPlatform(arrivals, platform)) == multiset(head) + multiset(OnPlatform(arrivals[1..], platform));
    }
  }

  /** The filter keeps order: filtering a concatenation concatenates the
      filtered parts, so what is kept from an earlier part comes first. */
  lemma {:induction false} OnPlatformAppend(front: seq<Arrival>, back: seq<Arrival>, platform: Option<string>)
    ensures OnPlatform(front + back, platform) == OnPlatform(front, platform) + OnPlatform(back, platform)
    decreases |front|
  {
    if front != [] {
      var head := if front[0].platform == platform then [front[0]] else [];
      assert (front + back)[0] == front[0] && (front + back)[1..] == front[1..] + back;
      assert OnPlatform(front + back, platform) == head + OnPlatform(front[1..] + back, platform);
      OnPlatformAppend(front[1..], back, platform);
      assert OnPlatform(front, platform) == head + OnPlatform(front[1..], platform);
    } else {
      assert front + back == back;
    }
  }

  /** The tail of a sorted batch is sorted and no sooner than its head. */
  lemma SortedTail(arrivals: seq<Arrival>)
    requires SortedByTts(arrivals) && arrivals != []
    ensures SortedByTts(arrivals[1..])
    ensures forall a :: a in arrivals[1..] ==> arrivals[0].timeToStation <= a.timeToStation
  {
    var rest := arrivals[1..];
    forall i, j | 0 <= i < j < |rest| ensures rest[i].timeToStation <= rest[j].timeToStation {
      assert rest[i] == arrivals[i + 1] && rest[j] == arrivals[j + 1];
    }
    forall a | a in rest ensures arrivals[0].timeToStation <= a.timeToStation {
      var k :| 0 <= k < |rest| && rest[k] == a;
      assert arrivals[k + 1] == a;
    }
  }

  /** An arrival no later than every one of a sorted batch can go in
      front of it. */
  lemma ConsSorted(x: Arrival, t: seq<Arrival>)
    requires SortedByTts(t)
    requires forall a :: a in t ==> x.timeToStation <= a.timeToStation
    ensures SortedByTts([x] + t)
  {
    forall i, j | 0 <= i < j < |t| + 1 ensures ([x] + t)[i].timeToStation <= ([x] + t)[j].timeToStation {
      assert ([x] + t)[j] == t[j - 1];
      if i == 0 {
        assert t[j - 1] in t;
      } else {
        assert ([x] + t)[i] == t[i - 1];
      }
    }
  }

  /** Filtering a sorted batch keeps it sorted. */
  lemma {:induction false} OnPlatformSorted(arrivals: seq<Arrival>, platform: Option<string>)
    requires SortedByTts(arrivals)
    ensures SortedByTts(OnPlatform(arrivals, platform))
    decreases |arrivals|
  {
    if arrivals != [] {
      var rest := arrivals[1..];
      SortedTail(arrivals);
      OnPlatformSorted(rest, platform);
      var t := OnPlatform(rest, platform);
      if arrivals[0].platform == platform {
        assert OnPlatform(arrivals, platform) == [arrivals[0]] + t;
        ConsSorted(arrivals[0], t);
      } else {
        assert OnPlatform(arrivals, platform) == t;
      }
    }
  }

  // ---------------------------------------------------- platform discovery

  /** Some record names platform `n`. */
  ghost predicate Named(items: seq<RawArrival>, n: string) {
    exists k :: 0 <= k < |items| && items[k].platformName == Some(n)
  }

  /** Every record naming `b` comes after some record naming `a`: `a` was
      seen first. */
  ghost predicate SeenBefore(items: seq<RawArrival>, a: string, b: string) {
    forall k :: 0 <= k < |items| && items[k].platformName == Some(b) ==>
      exists k' :: 0 <= k' < k && items[k'].platformName == Some(a)
  }

  predicate NoDuplicates(s: seq<string>) {
    forall i, j :: 0 <= i < j < |s| ==> s[i] != s[j]
  }

  /** The distinct non-null platform names of `items` in first-seen order. */
  function FirstSeen(items: seq<RawArrival>): seq<string>
    decreases |items|
  {
    if items == [] then []
    else
      var names := FirstSeen(items[..|items| - 1]);
      var p := items[|items| - 1].platformName;
      if p.Some? && p.value !in names then names + [p.value] else names
  }

  /** `FirstSeen` has no duplicates, holds exactly the non-null names, and
      lists them in the order they first appear. */
  lemma {:induction false} FirstSeenSpec(items: seq<RawArrival>)
    ensures NoDuplicates(FirstSeen(items))
    ensures forall n :: n in FirstSeen(items) <==> Named(items, n)
    ensures forall i, j :: 0 <= i < j < |FirstSeen(items)| ==>
              SeenBefore(items, FirstSeen(items)[i], FirstSeen(items)[j])
    decreases |items|
  {
    if items != [] {
      var init := items[..|items| - 1];
      var names := FirstSeen(init);
      FirstSeenSpec(init);
      NamedSnoc(items);
      var r := FirstSeen(items);
      assert r == names || r == names + [items[|items| - 1].platformName.value];
      forall i, j | 0 <= i < j < |r| ensures SeenBefore(items, r[i], r[j]) {
        assert r[i] == names[i] && Named(init, r[i]);
        if j < |names| {
          assert r[j] == names[j];
          assert SeenBefore(init, r[i], r[j]);
        } else {
          assert !Named(init, r[j]);
        }
        SeenBeforeSnoc(items, r[i], r[j]);
      }
    }
  }

  /** A name is named by the records exactly when it is named before the
      last one or by the last one. */
  lemma NamedSnoc(items: seq<RawArrival>)
    requires items != []
    ensures forall n :: Named(items, n) <==> Named(items[..|items| - 1], n) || items[|items| - 1].platformName == Some(n)
  {
    var init := items[..|items| - 1];
    forall n ensures Named(items, n) <==> Named(init, n) || items[|items| - 1].platformName == Some(n) {
      if Named(items, n) {
        var k :| 0 <= k < |items| && items[k].platformName == Some(n);
        if k < |init| { assert init[k] == items[k]; }
      }
      if Named(init, n) {
        var k :| 0 <= k < |init| && init[k].platformName == Some(n);
        assert items[k] == init[k];
      }
    }
  }

  /** One more record keeps `a` seen before `b` when `a` was seen before
      it, and `b` either was seen after `a` or not seen at all. */
  lemma SeenBeforeSnoc(items: seq<RawArrival>, a: string, b: string)
    requires items != []
    requires Named(items[..|items| - 1], a)
    requires SeenBefore(items[..|items| - 1], a, b) || !Named(items[..|items| - 1], b)
    ensures SeenBefore(items, a, b)
  {
    var init := items[..|items| - 1];
    var ka :| 0 <= ka < |init| && init[ka].platformName == Some(a);
    assert items[ka].platformName == Some(a);
    forall k | 0 <= k < |items| && items[k].platformName == Some(b)
      ensures exists k' :: 0 <= k' < k && items[k'].platformName == Some(a)
    {
      if k < |init| {
        assert init[k] == items[k];
        assert Named(init, b);
        var k' :| 0 <= k' < k && init[k'].platformName == Some(a);
        assert items[k'] == init[k'];
      } else {
        assert ka < k;
      }
    }
  }

  /** The loop of `loadPlatforms`: keep each non-null `platformName` not
      already collected. */
  method CollectPlatforms(items: seq<RawArrival>) returns (names: seq<string>)
    ensures names == FirstSeen(items)
  {
    names := [];
    for i := 0 to |items|
      invariant names == FirstSeen(items[..i])
    {
      assert items[..i + 1][..i] == items[..i];
      var p := items[i].platformName;
      if p.Some? && p.value !in names {
        names := names + [p.value];
      }
    }
    assert items[..|items|] == items;
  }

  // --------------------------------------- bodies of the arrivals endpoint

  /** What the `for...of` of `getTimetable` collects from a body it can
      walk, sorted. An array gives its records on the platform. A JSON
      string is walked character by character; a character has no
      `platformName`, and `undefined === platform` fails for a name or
      `null`, so a string gives no arrivals. */
  function BodyTimetable(json: Requests.Json<RawArrival>, ctx: PollContext, script: Script): seq<Arrival>
    requires json.List? || json.Text?
  {
    if json.List? then Timetabled(json.items, ctx, script) else []
  }

  /** A walked body yields arrivals of the polled station on the platform
      asked for, sorted; a string yields none. */
  lemma BodyTimetableSpec(json: Requests.Json<RawArrival>, ctx: PollContext, script: Script)
    requires json.List? || json.Text?
    ensures SortedByTts(BodyTimetable(json, ctx, script))
    ensures forall a :: a in BodyTimetable(json, ctx, script) ==>
              a.platform == ctx.platform && a.station == Some(ctx.stationId)
    ensures json.Text? ==> BodyTimetable(json, ctx, script) == []
    ensures json.List? ==> multiset(BodyTimetable(json, ctx, script)) == multiset(Matching(json.items, ctx, script))
  {
    if json.List? {
      TimetabledSpec(json.items, ctx, script);
      MatchingMembers(json.items, ctx, script);
      forall a | a in Timetabled(json.items, ctx, script)
        ensures a.station == Some(ctx.stationId)
      {
        assert a in multiset(Timetabled(json.items, ctx, script));
        assert a in Matching(json.items, ctx, script);
      }
    }
  }

  /** A platform list entry: a name, or `undefined` (`None`), which is what
      the loop of `loadPlatforms` reads from a character of a string body. */
  function Known(names: seq<string>): (r: seq<Option<string>>)
    ensures |r| == |names| && forall i :: 0 <= i < |names| ==> r[i] == Some(names[i])
  {
    seq(|names|, i requires 0 <= i < |names| => Some(names[i]))
  }

  /** What the loop of `loadPlatforms` stores for a body it can walk. An
      array gives its distinct non-null names in first-seen order. The
      characters of a string all read `platformName` as `undefined`, which
      is not `null`: the first one adds it and the rest find it there. */
  function BodyPlatforms(json: Requests.Json<RawArrival>): seq<Option<string>>
    requires json.List? || json.Text?
  {
    if json.List? then Known(FirstSeen(json.items))
    else if json.chars == "" then [] else [None]
  }

  /** The stored platform list has no duplicates, names exactly the
      non-null platforms of an array's records, and holds `undefined`
      exactly for a non-empty string. */
  lemma BodyPlatformsSpec(json: Requests.Json<RawArrival>)
    requires json.List? || json.Text?
    ensures forall i, j :: 0 <= i < j < |BodyPlatforms(json)| ==> BodyPlatforms(json)[i] != BodyPlatforms(json)[j]
    ensures forall n :: Some(n) in BodyPlatforms(json) <==> json.List? && Named(json.items, n)
    ensures None in BodyPlatforms(json) <==> json.Text? && json.chars != ""
  {
    if json.List? {
      var names := FirstSeen(json.items);
      FirstSeenSpec(json.items);
      forall n ensures Some(n) in Known(names) <==> n in names {
        if Some(n) in Known(names) {
          var k :| 0 <= k < |names| && Known(names)[k] == Some(n);
          assert names[k] == n;
        }
        if n in names {
          var k :| 0 <= k < |names| && names[k] == n;
          assert Known(names)[k] == Some(n);
        }
      }
    }
  }

  /** The loop of `loadPlatforms` over a body it can walk: the records'
      names for an array, and for a string one `undefined` per character
      unless it is already listed. */
  method CollectBodyPlatforms(json: Requests.Json<RawArrival>) returns (names: seq<Option<string>>)
    requires json.List? || json.Text?
    ensures names == BodyPlatforms(json)
  {
    if json.List? {
      var found := CollectPlatforms(json.items);
      names := Known(found);
    } else {
      names := [];
      for i := 0 to |json.chars|
        invariant names == if i == 0 then [] else [None]
      {
        if None !in names {
          names := names + [None];
        }
      }
    }
  }
}
