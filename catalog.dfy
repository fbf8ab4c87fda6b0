/**
 * The line and station catalog that `TFL_API.load` builds from the two
 * bootstrap record lists (the same code in both scripts): `UndergroundLine`
 * and `UndergroundLine_Station`, the zone taken from the station's
 * properties, the line ids kept only when the line is known, and the
 * wiring of each station into the `stations` dictionary of its lines.
 */
module Catalog {
  import opened Wrappers
  import opened Js

  datatype ServiceType = ServiceType(name: string)

  /** One record of `GET Line/Mode/tube`. */
  datatype LineJson = LineJson(id: string, name: string, serviceTypes: seq<ServiceType>)

  datatype LineRef = LineRef(id: string)

  datatype Property = Property(key: string, value: string)

  /** A latitude or longitude, carried as it came and never computed with. */
  datatype Coordinate = Coordinate(text: string)

  /** One record of `GET StopPoint/Type/NaptanMetroStation`. */
  datatype StationJson = StationJson(
    id: string,
    commonName: string,
    modes: seq<string>,
    stopType: string,
    placeType: string,
    lines: seq<LineRef>,
    additionalProperties: seq<Property>,
    lat: Coordinate,
    lon: Coordinate)

  /** `UndergroundLine`: after `load` its `stations` maps the id of each
      station on the line to that station, and `loaded` is set. */
  datatype Line = Line(
    id: string,
    source: LineJson,
    name: string,
    serviceTypes: seq<string>,
    stations: map<string, Station>,
    loaded: bool)

  /** `UndergroundLine_Station`. `lines` holds the ids of the known lines the
      station record names; `loadPlatforms` later rewrites
      `currentQueryPlatforms` (platform names, or `undefined` as `None`) and
      toggles `loaded`. */
  class Station {
    const id: string
    const source: StationJson
    const name: string
    const modes: seq<string>
    const stopType: string
    const placeType: string
    const lines: seq<string>
    const lat: Coordinate
    const lon: Coordinate
    const zone: Option<string>
    var currentQueryPlatforms: seq<Option<string>>
    var loaded: bool

    constructor(id: string, source: StationJson, commonName: string, modes: seq<string>, stopType: string,
                placeType: string, lines: seq<string>, lat: Coordinate, lon: Coordinate, zone: Option<string>)
      ensures this.id == id && this.source == source && this.name == StationName(commonName)
      ensures this.modes == modes && this.stopType == stopType && this.placeType == placeType
      ensures this.lines == lines && this.lat == lat && this.lon == lon && this.zone == zone
      ensures currentQueryPlatforms == [] && loaded
    {
      this.id := id;
      this.source := source;
      this.name := StationName(commonName);
      this.modes := modes;
      this.stopType := stopType;
      this.placeType := placeType;
      this.lines := lines;
      this.lat := lat;
      this.lon := lon;
      this.zone := zone;
      currentQueryPlatforms := [];
      loaded := true;
    }
  }

  // --------------------------------------------------------------- names

  const UndergroundSuffix: string := " Underground Station"

  /** `commonName.replace(" Underground Station", "")`. */
  function StationName(commonName: string): string {
    ReplaceFirst(commonName, UndergroundSuffix, "")
  }

  /** A name ending in " Underground Station", and holding it nowhere else,
      loses exactly that suffix; a name that never holds it is kept. */
  lemma StationNameSpec(base: string)
    requires forall j :: 0 <= j < |base| ==> !OccursAt(base + UndergroundSuffix, UndergroundSuffix, j)
    ensures StationName(base + UndergroundSuffix) == base
    ensures (forall j :: 0 <= j <= |base| ==> !OccursAt(base, UndergroundSuffix, j)) ==> StationName(base) == base
  {
    var s := base + UndergroundSuffix;
    assert OccursAt(s, UndergroundSuffix, |base|) by {
      assert s[|base|..|base| + |UndergroundSuffix|] == UndergroundSuffix;
    }
    assert s[..|base|] + "" + s[|base| + |UndergroundSuffix|..] == base by {
      assert s[..|base|] == base;
      assert s[|base| + |UndergroundSuffix|..] == [];
    }
  }

  // ---------------------------------------------------------------- lines

  /** `line.serviceTypes.map(serviceType => serviceType.name)`. */
  function ServiceNames(types: seq<ServiceType>): (names: seq<string>)
    ensures |names| == |types| && forall i :: 0 <= i < |types| ==> names[i] == types[i].name
  {
    if types == [] then [] else [types[0].name] + ServiceNames(types[1..])
  }

  /** `new UndergroundLine(line.id, line, line.name, services)`. */
  function NewLine(rec: LineJson): (l: Line)
    ensures l.id == rec.id && l.name == rec.name && l.serviceTypes == ServiceNames(rec.serviceTypes)
    ensures l.stations == map[] && !l.loaded
  {
    Line(rec.id, rec, rec.name, ServiceNames(rec.serviceTypes), map[], false)
  }

  /** The lines dictionary after the `forEach` over the line records: each
      record stored under its id, a later record replacing an earlier one. */
  function LinesFrom(records: seq<LineJson>): map<string, Line>
    decreases |records|
  {
    if records == [] then map[]
    else
      var last := records[|records| - 1];
      LinesFrom(records[..|records| - 1])[last.id := NewLine(last)]
  }

  /** Some record of `records` has id `k`. */
  ghost predicate HasLineId(records: seq<LineJson>, k: string) {
    exists i :: 0 <= i < |records| && records[i].id == k
  }

  /** The record with index `i` is the last of `records` with id `k`. */
  ghost predicate LastLineRecord(records: seq<LineJson>, k: string, i: nat) {
    i < |records| && records[i].id == k && forall j :: i < j < |records| ==> records[j].id != k
  }

  /** The dictionary holds exactly the record ids. */
  lemma {:induction false} LinesFromKeys(records: seq<LineJson>)
    ensures forall k :: k in LinesFrom(records) <==> HasLineId(records, k)
    decreases |records|
  {
    if records != [] {
      var n := |records| - 1;
      var init := records[..n];
      LinesFromKeys(init);
      forall k ensures HasLineId(records, k) <==> HasLineId(init, k) || k == records[n].id {
        if HasLineId(init, k) {
          var i :| 0 <= i < |init| && init[i].id == k;
          assert records[i].id == k;
        }
        if HasLineId(records, k) {
          var i :| 0 <= i < |records| && records[i].id == k;
          if i < n { assert init[i].id == k; }
        }
      }
    }
  }

  /** Each id is mapped to the line made from the last record with that id. */
  lemma {:induction false} LinesFromValues(records: seq<LineJson>)
    ensures forall k :: k in LinesFrom(records) ==>
              exists i: nat :: LastLineRecord(records, k, i) && LinesFrom(records)[k] == NewLine(records[i])
    decreases |records|
  {
    if records != [] {
      var n := |records| - 1;
      var init := records[..n];
      LinesFromValues(init);
      forall k | k in LinesFrom(records)
        ensures exists i: nat :: LastLineRecord(records, k, i) && LinesFrom(records)[k] == NewLine(records[i])
      {
        if k == records[n].id {
          assert LastLineRecord(records, k, n);
        } else {
          assert LinesFrom(records)[k] == LinesFrom(init)[k];
          var i: nat :| LastLineRecord(init, k, i) && LinesFrom(init)[k] == NewLine(init[i]);
          assert records[i] == init[i];
          forall j | i < j < |records| ensures records[j].id != k {
            if j < n { assert records[j] == init[j]; }
          }
          assert LastLineRecord(records, k, i);
        }
      }
    }
  }

  /** The `underground_lines_json.forEach` loop of `load`. */
  method BuildLines(records: seq<LineJson>) returns (lines: map<string, Line>)
    ensures lines == LinesFrom(records)
  {
    lines := map[];
    for i := 0 to |records|
      invariant lines == LinesFrom(records[..i])
    {
      assert records[..i + 1][..i] == records[..i];
      lines := lines[records[i].id := NewLine(records[i])];
    }
    assert records[..|records|] == records;
  }

  /** The `for (let line_id of Object.keys(undergroundLines))` loop: every
      line is marked loaded and nothing else changes. */
  method MarkLoaded(lines: map<string, Line>) returns (marked: map<string, Line>)
    ensures marked.Keys == lines.Keys
    ensures forall k :: k in lines ==> marked[k] == lines[k].(loaded := true)
  {
    marked := lines;
    var todo := lines.Keys;
    while todo != {}
      invariant todo <= lines.Keys && marked.Keys == lines.Keys
      invariant forall k :: k in lines ==> marked[k] == (if k in todo then lines[k] else lines[k].(loaded := true))
      decreases todo
    {
      var k :| k in todo;
      marked := marked[k := marked[k].(loaded := true)];
      todo := todo - {k};
    }
  }

  // ---------------------------------------------------------------- zones

  /** The value of the last "Zone" property, `null` when there is none. */
  function LastZone(props: seq<Property>): Option<string>
    decreases |props|
  {
    if props == [] then None
    else if props[|props| - 1].key == "Zone" then Some(props[|props| - 1].value)
    else LastZone(props[..|props| - 1])
  }

  /** The zone is absent exactly when no property is keyed "Zone"; otherwise
      it is the value of a "Zone" property after which none follows. */
  lemma {:induction false} LastZoneSpec(props: seq<Property>)
    ensures LastZone(props).None? <==> forall k :: 0 <= k < |props| ==> props[k].key != "Zone"
    ensures LastZone(props).Some? ==>
              exists k :: 0 <= k < |props| && props[k].key == "Zone" && props[k].value == LastZone(props).value
                          && forall j :: k < j < |props| ==> props[j].key != "Zone"
    decreases |props|
  {
    if props != [] {
      var n := |props| - 1;
      var init := props[..n];
      LastZoneSpec(init);
      if props[n].key != "Zone" {
        forall k | 0 <= k < n ensures props[k] == init[k] { }
        if LastZone(init).Some? {
          var k :| 0 <= k < |init| && init[k].key == "Zone" && init[k].value == LastZone(init).value
                    && forall j :: k < j < |init| ==> init[j].key != "Zone";
          assert props[k] == init[k];
        }
      }
    }
  }

  /** The `for (let additionalProperty of station.additionalProperties)`
      loop of `load`. */
  method FindZone(props: seq<Property>) returns (zone: Option<string>)
    ensures zone == LastZone(props)
  {
    zone := None;
    for i := 0 to |props|
      invariant zone == LastZone(props[..i])
    {
      assert props[..i + 1][..i] == props[..i];
      if props[i].key == "Zone" {
        zone := Some(props[i].value);
      }
    }
    assert props[..|props|] == props;
  }

  // ------------------------------------------------------------- stations

  /** Some reference in `refs` names line `id`. */
  ghost predicate Names(refs: seq<LineRef>, id: string) {
    exists i :: 0 <= i < |refs| && refs[i].id == id
  }

  /** `station.lines.map(line => undergroundLines[line.id])
      .filter(line => line !== undefined)`, as the ids of the lines kept. */
  function KnownLines(refs: seq<LineRef>, known: set<string>): (ids: seq<string>)
    ensures forall id :: id in ids <==> id in known && Names(refs, id)
    decreases |refs|
  {
    if refs == [] then []
    else
      var rest := KnownLines(refs[1..], known);
      assert forall id :: Names(refs, id) <==> id == refs[0].id || Names(refs[1..], id) by {
        forall id ensures Names(refs, id) <==> id == refs[0].id || Names(refs[1..], id) {
          if Names(refs[1..], id) {
            var i :| 0 <= i < |refs[1..]| && refs[1..][i].id == id;
            assert refs[i + 1].id == id;
          }
          if Names(refs, id) && id != refs[0].id {
            var i :| 0 <= i < |refs| && refs[i].id == id;
            assert refs[1..][i - 1].id == id;
          }
        }
      }
      if refs[0].id in known then [refs[0].id] + rest else rest
  }

  /** The station object `st` carries what the `stations_json.forEach`
      loop constructs from `rec`, with the known line ids `known`: every one
      of its immutable fields. */
  ghost predicate BuiltFrom(st: Station, rec: StationJson, known: set<string>) {
    st.id == rec.id && st.source == rec && st.name == StationName(rec.commonName)
    && st.modes == rec.modes && st.stopType == rec.stopType && st.placeType == rec.placeType
    && st.lines == KnownLines(rec.lines, known) && st.lat == rec.lat && st.lon == rec.lon
    && st.zone == LastZone(rec.additionalProperties)
  }

  /** The ids of the first `n` records. */
  function StationIds(records: seq<StationJson>, n: nat): set<string>
    requires n <= |records|
  {
    if n == 0 then {} else StationIds(records, n - 1) + {records[n - 1].id}
  }

  /** An id is among those of the first `n` records exactly when one of
      those records carries it. */
  lemma {:induction false} StationIdsSpec(records: seq<StationJson>, n: nat, k: string)
    requires n <= |records|
    ensures k in StationIds(records, n) <==> exists i :: 0 <= i < n && records[i].id == k
  {
    if n > 0 {
      StationIdsSpec(records, n - 1, k);
      if k in StationIds(records, n - 1) {
        var i :| 0 <= i < n - 1 && records[i].id == k;
        assert 0 <= i < n && records[i].id == k;
      }
      if k == records[n - 1].id {
        assert 0 <= n - 1 < n && records[n - 1].id == k;
      }
    }
  }

  /** The record with index `i` is the last of the first `n` with id `k`. */
  ghost predicate LastStationRecord(records: seq<StationJson>, n: nat, k: string, i: nat) {
    i < n <= |records| && records[i].id == k && forall j :: i < j < n ==> records[j].id != k
  }

  /** Each entry of `stations` is the station built from the last of the
      first `n` records with its id. */
  ghost predicate StationsBuilt(records: seq<StationJson>, n: nat, stations: map<string, Station>, known: set<string>)
  {
    forall k :: k in stations ==>
      exists i: nat :: LastStationRecord(records, n, k, i) && BuiltFrom(stations[k], records[i], known)
  }

  /** Each station is in the `stations` dictionary of every line it names,
      and each line's dictionary holds only stations that name that line,
      under their own id. */
  ghost predicate Wired(lines: map<string, Line>, stations: map<string, Station>) {
    (forall sid, lid :: sid in stations && lid in stations[sid].lines ==>
       lid in lines && sid in lines[lid].stations && lines[lid].stations[sid] == stations[sid])
    && (forall lid, sid :: lid in lines && sid in lines[lid].stations ==>
          lines[lid].stations[sid].id == sid && lid in lines[lid].stations[sid].lines)
  }

  /** `for (let line of lines) line.stations[station.id] = station`. */
  method Wire(lines: map<string, Line>, st: Station) returns (wired: map<string, Line>)
    requires forall lid :: lid in st.lines ==> lid in lines
    ensures wired.Keys == lines.Keys
    ensures forall lid :: lid in lines ==>
              wired[lid] == if lid in st.lines then lines[lid].(stations := lines[lid].stations[st.id := st]) else lines[lid]
  {
    wired := lines;
    for i := 0 to |st.lines|
      invariant wired.Keys == lines.Keys
      invariant forall lid :: lid in lines ==>
                  wired[lid] == if lid in st.lines[..i] then lines[lid].(stations := lines[lid].stations[st.id := st]) else lines[lid]
    {
      var lid := st.lines[i];
      assert st.lines[..i + 1] == st.lines[..i] + [lid];
      ghost var before := wired;
      wired := wired[lid := wired[lid].(stations := wired[lid].stations[st.id := st])];
      forall l | l in lines
        ensures wired[l] == if l in st.lines[..i + 1] then lines[l].(stations := lines[l].stations[st.id := st]) else lines[l]
      {
        if l == lid {
          assert l in st.lines[..i + 1];
          if l in st.lines[..i] {
            assert before[l].stations[st.id := st] == before[l].stations;
          }
        } else {
          assert wired[l] == before[l];
          assert l in st.lines[..i + 1] <==> l in st.lines[..i];
        }
      }
    }
    assert st.lines[..|st.lines|] == st.lines;
  }

  /** Wiring one more station into its lines keeps the wiring exact. */
  lemma WireStep(lines: map<string, Line>, wired: map<string, Line>, stations: map<string, Station>, st: Station)
    requires Wired(lines, stations)
    requires forall lid :: lid in st.lines ==> lid in lines
    requires wired.Keys == lines.Keys
    requires forall lid :: lid in lines ==>
               wired[lid] == if lid in st.lines then lines[lid].(stations := lines[lid].stations[st.id := st]) else lines[lid]
    ensures Wired(wired, stations[st.id := st])
  {
    var after := stations[st.id := st];
    forall sid, lid | sid in after && lid in after[sid].lines
      ensures lid in wired && sid in wired[lid].stations && wired[lid].stations[sid] == after[sid]
    {
      if sid != st.id {
        assert lid in lines && sid in lines[lid].stations && lines[lid].stations[sid] == stations[sid];
      }
    }
    forall lid, sid | lid in wired && sid in wired[lid].stations
      ensures wired[lid].stations[sid].id == sid && lid in wired[lid].stations[sid].lines
    {
      if !(lid in st.lines && sid == st.id) {
        assert sid in lines[lid].stations;
      }
    }
  }

  /** Wiring a station changes no line's fields other than its stations. */
  lemma WireKeepsFields(orig: map<string, Line>, lines: map<string, Line>, wired: map<string, Line>, st: Station)
    requires lines.Keys == orig.Keys && wired.Keys == lines.Keys
    requires forall lid :: lid in orig ==> lines[lid] == orig[lid].(stations := lines[lid].stations)
    requires forall lid :: lid in lines ==>
               wired[lid] == if lid in st.lines then lines[lid].(stations := lines[lid].stations[st.id := st]) else lines[lid]
    ensures forall lid :: lid in orig ==> wired[lid] == orig[lid].(stations := wired[lid].stations)
  {
    forall lid | lid in orig
      ensures wired[lid] == orig[lid].(stations := wired[lid].stations)
    {
      assert lines[lid] == orig[lid].(stations := lines[lid].stations);
    }
  }

  /** The `stations_json.forEach` loop of `load`: construct each station,
      store it under its id (a later record replacing an earlier one) and
      wire it into its lines. Starts from lines with no stations, as `load`
      has them at that point. */
  method BuildStations(records: seq<StationJson>, lines: map<string, Line>)
    returns (stations: map<string, Station>, wired: map<string, Line>)
    requires forall lid :: lid in lines ==> lines[lid].stations == map[]
    ensures Building(records, |records|, lines, stations, wired)
  {
    stations := map[];
    wired := lines;
    for n := 0 to |records|
      invariant Building(records, n, lines, stations, wired)
    {
      var st := NewStation(records[n], wired.Keys);
      var next := Wire(wired, st);
      BuildStep(records, n, lines, stations, wired, st, next);
      stations, wired := stations[records[n].id := st], next;
    }
  }

  /** The invariant of the `stations_json.forEach` loop after `n` records:
      the lines keep their fields but for their stations, the stored ids are
      those of the records read, each built from the last record with its
      id, and the wiring is exact. */
  ghost predicate Building(records: seq<StationJson>, n: nat, lines: map<string, Line>,
                           stations: map<string, Station>, wired: map<string, Line>)
  {
    && n <= |records|
    && wired.Keys == lines.Keys
    && (forall lid :: lid in lines ==> wired[lid] == lines[lid].(stations := wired[lid].stations))
    && stations.Keys == StationIds(records, n)
    && StationsBuilt(records, n, stations, lines.Keys)
    && Wired(wired, stations)
  }

  /** Building, storing and wiring the station of record `n` keeps the
      loop invariant. */
  lemma BuildStep(records: seq<StationJson>, n: nat, lines: map<string, Line>, stations: map<string, Station>,
                  wired: map<string, Line>, st: Station, next: map<string, Line>)
    requires n < |records| && Building(records, n, lines, stations, wired)
    requires BuiltFrom(st, records[n], wired.Keys)
    requires next.Keys == wired.Keys
    requires forall lid :: lid in wired ==>
               next[lid] == if lid in st.lines then wired[lid].(stations := wired[lid].stations[st.id := st]) else wired[lid]
    ensures Building(records, n + 1, lines, stations[records[n].id := st], next)
  {
    WireStep(wired, next, stations, st);
    WireKeepsFields(lines, wired, next, st);
    StationsStep(records, n, stations, st, lines.Keys);
    assert stations[records[n].id := st].Keys == stations.Keys + {records[n].id};
  }

  /** `new Station(station_json, lines)`: the station of one record, naming
      those of its lines that are `known`. */
  method NewStation(rec: StationJson, known: set<string>) returns (st: Station)
    ensures fresh(st) && BuiltFrom(st, rec, known)
    ensures st.currentQueryPlatforms == [] && st.loaded
  {
    var zone := FindZone(rec.additionalProperties);
    var lineIds := KnownLines(rec.lines, known);
    st := new Station(rec.id, rec, rec.commonName, rec.modes, rec.stopType, rec.placeType,
                      lineIds, rec.lat, rec.lon, zone);
  }

  /** What `load` leaves behind when both bodies are arrays: one line per
      line id, made from its last record and marked loaded; one station per
      station id, built from its last record; every station wired into the
      lines it names and every line holding exactly those stations. */
  ghost predicate Catalogued(lineRecords: seq<LineJson>, stationRecords: seq<StationJson>,
                             lines: map<string, Line>, stations: map<string, Station>)
  {
    && lines.Keys == LinesFrom(lineRecords).Keys
    && (forall lid :: lid in lines ==>
          lines[lid] == LinesFrom(lineRecords)[lid].(stations := lines[lid].stations, loaded := true))
    && stations.Keys == StationIds(stationRecords, |stationRecords|)
    && StationsBuilt(stationRecords, |stationRecords|, stations, lines.Keys)
    && Wired(lines, stations)
  }

  /** The rest of `load` once both bodies are arrays: build and wire the
      stations into the lines read, then mark every line loaded. */
  method CompleteCatalog(lineRecords: seq<LineJson>, built: map<string, Line>, stationRecords: seq<StationJson>)
    returns (lines: map<string, Line>, stations: map<string, Station>)
    requires built == LinesFrom(lineRecords)
    ensures Catalogued(lineRecords, stationRecords, lines, stations)
  {
    LinesFromValues(lineRecords);
    var wired;
    stations, wired := BuildStations(stationRecords, built);
    lines := MarkLoaded(wired);
    forall lid | lid in lines
      ensures lines[lid] == built[lid].(stations := lines[lid].stations, loaded := true)
    {
      assert wired[lid] == built[lid].(stations := wired[lid].stations);
    }
    assert Wired(lines, stations) by {
      assert forall lid :: lid in lines ==> lines[lid].stations == wired[lid].stations;
    }
  }

  /** Storing the station built from record `n` extends `StationsBuilt`. */
  lemma StationsStep(records: seq<StationJson>, n: nat, stations: map<string, Station>, st: Station, known: set<string>)
    requires n < |records|
    requires StationsBuilt(records, n, stations, known)
    requires BuiltFrom(st, records[n], known)
    ensures StationsBuilt(records, n + 1, stations[records[n].id := st], known)
  {
    var after := stations[records[n].id := st];
    forall k | k in after
      ensures exists i: nat :: LastStationRecord(records, n + 1, k, i) && BuiltFrom(after[k], records[i], known)
    {
      if k == records[n].id {
        assert LastStationRecord(records, n + 1, k, n) && BuiltFrom(after[k], records[n], known);
      } else {
        var i: nat :| LastStationRecord(records, n, k, i) && BuiltFrom(stations[k], records[i], known);
        LastRecordKept(records, n, k, i);
        assert after[k] == stations[k];
        assert LastStationRecord(records, n + 1, k, i) && BuiltFrom(after[k], records[i], known);
      }
    }
  }

  /** A record with another id does not change which record is the last
      with id `k`. */
  lemma LastRecordKept(records: seq<StationJson>, n: nat, k: string, i: nat)
    requires n < |records| && records[n].id != k
    requires LastStationRecord(records, n, k, i)
    ensures LastStationRecord(records, n + 1, k, i)
  {
  }

  // ------------------------------------------------------------- lookups

  /** `undergroundLines[id]`: the catalog's line, or `undefined`. */
  function LineById(lines: map<string, Line>, id: string): (l: Option<Line>)
    ensures l.Some? <==> id in lines
    ensures l.Some? ==> l.value == lines[id]
  {
    if id in lines then Some(lines[id]) else None
  }

  /** `undergroundStations[id]`: the catalog's station, or `undefined` for
      an unknown id or a select with no option chosen. */
  function StationById(stations: map<string, Station>, id: Option<string>): (st: Station?)
    ensures st != null <==> id.Some? && id.value in stations
    ensures st != null ==> st == stations[id.value] && st in stations.Values
  {
    if id.Some? && id.value in stations then stations[id.value] else null
  }
}
