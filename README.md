# TFL departure board, modelled in Dafny

This project models the London Underground departure board: two browser
scripts that poll the TfL API and drive a four-row board, and the small Node
server that routes page requests. The model is written in Dafny and its
properties are proved.

- `static/js/index.js` is the later board script. It has:
  - a request policy with 0.5 s spacing and a bypass for bootstrap calls;
  - the 429 back-off;
  - the catalog build (`load`);
  - the push room (`ws`, `setOnWSPush`, the `showPredictions` handler);
  - `BoardDomHandler` with its poll loop and staleness guard;
  - the option handlers;
  - `update_url` and the restore of a selection from the URL path.
- `site/static/js/index.js` is the earlier script. It has:
  - no spacing check and no push channel;
  - a staleness guard that compares request times;
  - `set_url_param` over a query-string dictionary;
  - a restore from the query parameters.
- `server.js` holds:
  - the routing decision for a pathname: static directory, trailing-slash redirect, first matching route, fallback redirect;
  - the wildcard patterns, as `wildcardToRegex` compiles them;
  - the content-type table.

Modules, one concept each:

| file | module | what it holds |
|---|---|---|
| `wrappers.dfy` | `Wrappers` | `Option` (null/undefined next to a value) and `Completion` (returned or threw) |
| `js.dfy` | `Js` | the JavaScript built-ins the code relies on: the truncating `%`, `Math.round` of a quotient, number printing, `indexOf`, first-match `replace`, `split`, `join` |
| `requests.dfy` | `Requests` | the 429 retry loop of `get`, shared by both scripts |
| `arrivals.dfy` | `Arrivals` | raw, push and normalised arrivals, the stable sort by seconds to station, the platform filter, the first-seen platform list |
| `rendering.dfy` | `Rendering` | the board rows, `writeArrivalLine`'s text, the banner, the next-poll delay |
| `catalog.dfy` | `Catalog` | `UndergroundLine` (a value) and `UndergroundLine_Station` (a class, because `loadPlatforms` changes it), and the loops of `load` |
| `static_api.dfy` | `StaticApi` | `TFL_API` of the later script, as the class `TflApi` |
| `static_board.dfy` | `StaticBoard` | `BoardDomHandler` of the later script (class `Board`), the handlers, `update_url`, the push callback, the restore |
| `site_api.dfy` | `SiteApi` | `TFL_API` of the earlier script (class `SiteApi`) |
| `site_board.dfy` | `SiteBoard` | `url_paramaters` (class `UrlParams`), `BoardDomHandler` of the earlier script (class `SiteBoard`), the handlers, the restore |
| `server.dfy` | `Server` | the pattern compiler and matcher, the route table, `Decide` and the handler loop, `getContentType` |

How the outside world appears in the model:

- **Network.** The upstream is an oracle, `fetch: nat -> Response<J>`: the answer to the i-th send of one call. A JSON body is an array of typed records, a string, a scalar (`null`, a boolean or a number, truthy or falsy) or an object.
- **Clock.** The time `get` runs at is a parameter, `now`.
- **Push hub.** The hub is the log of `addLineRooms`/`removeLineRooms` calls made on it.
- **Timers.** A scheduled poll is the `pending` delay. Firing it is `PollTimerFires`.
- **Page.** The board is three rows, each a left and a right cell. The address bar is a field: `location` in the later script, `search` in the earlier one.
- **Select widgets.** Each handler is given the value its select reports.

The code is modelled as written, including these quirks:

- **Poll path argument shift.** The later script's poll path passes eleven arguments to the twelve-parameter arrival constructor. The read time lands in `vehicle_id` and `request_time` is the invalid date (`Arrivals.Polled`).
- **Staleness test.** The later script's test parses as `(last && arrivals[0]?.request_time) || (Infinity <= last)`. Once one update has been applied, every later non-empty list is skipped and the skip returns `undefined`. The board therefore shows arrivals at most once (`StaticBoard.ShownOnce`).
- **Empty list.** An empty list throws at `arrivals[0].request_time` in both scripts, after "No trains arriving" is written.
- **Falsy answers.** The later script's `getTimetable` answers `null` for every falsy answer: a refused or exhausted `get`, and a `null`, `false`, `0` or `""` body (`StaticApi.PollResult`). The earlier script's has no such test, so a refused or exhausted `get` throws in its `for...of` (`SiteApi.SiteSettledSpec`).
- **String bodies.** `for...of` walks a JSON string character by character, and a character has no `platformName`. Both `getTimetable`s give an empty timetable for a non-empty string; the earlier one also gives it for `""` (`Arrivals.BodyTimetableSpec`). Both `loadPlatforms` store `[]` for `""` and `[undefined]` for a non-empty string (`Arrivals.BodyPlatformsSpec`).
- **Other bodies.** A `for...of` throws on a scalar or an object, and `load`'s `forEach` throws on anything but an array.
- **Mangled `**`.** `wildcardToRegex` replaces `**` with `(.*)` and then replaces that `*` again, so `**` matches one character and a run without `/` (`Server.DoubleStarMatches`).
- **Robots dot.** The `.` of `/robots.txt` is unescaped and matches any character but a line terminator (`Server.RobotsMatches`).
- **Empty route.** The route `""` is dead, because `""` is redirected to `/` first (`Server.EmptyPathname`).

Three consequences of the code that a reader might not expect:

- **Next delay for 45 s and 600 s.** Trains 45 and 600 seconds away give a 10-second delay: `600 % 30 || 30` is 30 and the minimum slot is 15 (`Rendering.NextDelayNearTrain`).
- **Partial catalog.** If the stations read fails after the lines read succeeded, the lines dictionary stays filled and the module is not marked loaded (`StaticApi.TflApi.Load`, `SiteApi.SiteApi.Load`).
- **Poll-loop failures.** An exception inside `query_fn` ends the poll loop, because no timer is set after it (`pending == None`).

In the earlier script the page waits on the exported `TFL_API.loaded`. That export copies `false` when the module is built, so the wait never ends. Its restore (`SiteBoard.Restore`) is the code as written after the wait, which the page itself never reaches.

## Model

| member | source | states |
|---|---|---|
| Js.Rem30 | static/js/index.js:452-454 | JavaScript's `x % 30`: the remainder has the sign of the dividend, differs from it by a multiple of 30, and is zero exactly when 30 divides it |
| Js.RoundedMinutes | static/js/index.js:368 | `Math.round(s / 60)` is the whole number of minutes nearest to `s`, halves rounded up |
| Js.NatToString | static/js/index.js:368 | the template text of a number is a non-empty string of decimal digits |
| Js.NatToStringRoundTrip | static/js/index.js:368 | reading back the printed number gives the number, and the printed form has no leading zero |
| Js.IndexOfFrom | static/js/index.js:18 | `indexOf` finds the least index at or after `from` where the pattern occurs; without a result the pattern occurs nowhere from there |
| Js.ReplaceFirst | static/js/index.js:18 | `replace` with a string pattern replaces only the first occurrence, and returns the string unchanged when there is none |
| Js.Split | server.js:63 | `split` on one character yields at least one piece |
| Js.SplitPieces | server.js:63 | no piece of a split holds the separator |
| Js.JoinSplit | server.js:63 | joining the pieces of a split with the separator gives back the string |
| Js.SplitJoin | static/js/index.js:717 | splitting a join of separator-free pieces gives back the pieces |
| Requests.Wait | static/js/index.js:137-160 | the wait in hand before each send is at least the initial 10 seconds |
| Requests.RetryLoop | static/js/index.js:137-166 | the `while (true)` loop of `get` gives exactly the result and the waits of the retry specification `RetryOutcome` |
| Requests.AllRateLimited | static/js/index.js:151-160 | six 429 answers give the waits 10, 20, 40, 80, 160 and then `null` |
| Requests.FirstAnswer | site/static/js/index.js:151-178 | the first answer other than 429 among the first six ends the loop: its body is returned after exactly the waits before it |
| Requests.FirstAnswerFrom | site/static/js/index.js:151-178 | the same from any send number on, by induction on the sends left |
| Arrivals.SortByTtsCorrect | static/js/index.js:65 | the sort by `time_to_station` yields an ascending permutation of its input |
| Arrivals.SortByTtsStable | static/js/index.js:275 | the sort is stable: arrivals due in the same number of seconds keep their order |
| Arrivals.InsertSorted | static/js/index.js:65 | inserting into a sorted list keeps it sorted |
| Arrivals.InsertPermutes | static/js/index.js:65 | inserting adds exactly the one element |
| Arrivals.InsertStable | static/js/index.js:65 | an inserted arrival goes in front of those due at the same time, which keep their order |
| Arrivals.Lookup | static/js/index.js:45 | a dictionary lookup by id is present exactly for a known id, and then names it |
| Arrivals.Polled | static/js/index.js:47-60 | the poll path's arrival has the platform asked for, the record's seconds, the polled line and station, and the looked-up destination. The later script puts the read time into `vehicle_id` and leaves `request_time` invalid; the earlier one keeps the read time as `request_time` |
| Arrivals.Pushed | static/js/index.js:260-272 | the push path's arrival looks up its line, station and destination, and keeps the record's platform, seconds, read time (as `request_time`) and vehicle |
| Arrivals.AllPushed | static/js/index.js:260-273 | the normalised batch has one arrival per record, in batch order |
| Arrivals.NormaliseBatch | static/js/index.js:258-273 | the push handler's loop builds exactly `AllPushed` |
| Arrivals.MatchingMembers | static/js/index.js:43-63 | an arrival is collected exactly when a record naming the platform asked for produced it, so every collected arrival is on that platform |
| Arrivals.CollectMatching | static/js/index.js:37-63 | the `for...of` loop of `getTimetable` builds exactly `Matching` |
| Arrivals.TimetabledSpec | static/js/index.js:43-67 | the timetable is sorted, is a permutation of the matching arrivals and holds only the platform asked for; in the earlier script every arrival has a valid request time |
| Arrivals.OnPlatform | static/js/index.js:656 | an arrival is in the filtered batch exactly when it is in the batch and on the platform |
| Arrivals.OnPlatformCounts | static/js/index.js:656 | `filter` keeps each arrival on the platform as often as it occurs in the batch, and no other arrival |
| Arrivals.OnPlatformAppend | static/js/index.js:656 | `filter` keeps order: the filter of a concatenation is the concatenation of the filters |
| Arrivals.OnPlatformSorted | static/js/index.js:656 | filtering a sorted batch keeps it sorted |
| Arrivals.FirstSeenSpec | static/js/index.js:74-82 | the collected platform names have no duplicates, are exactly the non-null names of the records, and are in first-seen order |
| Arrivals.CollectPlatforms | static/js/index.js:76-80 | the loop of `loadPlatforms` builds exactly `FirstSeen` |
| Arrivals.BodyTimetableSpec | static/js/index.js:43-65 | a walked body gives sorted arrivals of the polled station on the platform asked for; an array gives a permutation of its matching records; a string gives none |
| Arrivals.BodyPlatformsSpec | static/js/index.js:73-82 | the stored platform list has no duplicates, names exactly the non-null platforms of an array's records, and holds `undefined` exactly for a non-empty string |
| Arrivals.CollectBodyPlatforms | static/js/index.js:76-80 | the loop of `loadPlatforms` over an array or a string builds exactly `BodyPlatforms` |
| Rendering.TimeTextSpec | static/js/index.js:368-372 | the time text is "Arrived" exactly at the platform; otherwise it is "Due" exactly under 30 seconds, and else the nearest whole number of minutes (at least one) followed by " min" |
| Rendering.ArrivalRow | static/js/index.js:374-375 | the left cell is the index, two spaces and `towards`; the right cell is the time text; the row is not centred |
| Rendering.WriteArrivalLine | static/js/index.js:365-366 | a missing arrival leaves the row unchanged; a present one writes its row |
| Rendering.ShowArrivals | static/js/index.js:442-449 | rows one to three show the first three arrivals where present; the banner is on row three exactly when the first train is under ten seconds away, or was already there and no third arrival overwrote it |
| Rendering.Prompt | static/js/index.js:409-422 | the prompt screen has the title on row one and a clear row three; row two asks for a line and station with no line, for a station on the named line with no station, and for a platform otherwise |
| Rendering.Slot | static/js/index.js:452-454 | `arrivals[i]?.time_to_station % 30 \|\| 30` is in 1..30, or is negative for a negative number of seconds |
| Rendering.RawDelay | static/js/index.js:451-456 | the clamped minimum is between 5 and 30 |
| Rendering.NextDelaySpec | static/js/index.js:451-466 | the next delay is 10 or 30, and it is 30 exactly when each of the first three arrivals that exist is a whole number of half-minutes away |
| Rendering.NextDelayNearTrain | site/static/js/index.js:364-377 | trains 45 and 600 seconds away give a slot of 15 and a delay of 10 |
| Catalog.Station.constructor | static/js/index.js:15-30 | the station keeps its fields, strips the suffix from its name, has no platforms and is loaded |
| Catalog.StationNameSpec | static/js/index.js:18 | a name ending in " Underground Station", and holding it nowhere earlier, loses exactly that suffix; a name that never holds it is kept |
| Catalog.ServiceNames | static/js/index.js:179 | the service names are the `name`s of the service types, in order |
| Catalog.NewLine | static/js/index.js:2-10 | a new line keeps the record's id and name, has the service names, no stations and is not loaded |
| Catalog.LinesFromKeys | static/js/index.js:178-181 | the lines dictionary holds exactly the ids of the records |
| Catalog.LinesFromValues | static/js/index.js:178-181 | each id maps to the line built from the last record with that id |
| Catalog.BuildLines | static/js/index.js:178-181 | the `forEach` over the line records builds exactly `LinesFrom` |
| Catalog.MarkLoaded | static/js/index.js:239-241 | every line is marked loaded and nothing else changes |
| Catalog.LastZoneSpec | static/js/index.js:184-192 | the zone is `null` exactly when no property is keyed "Zone"; otherwise it is the value of a "Zone" property with no later one |
| Catalog.FindZone | static/js/index.js:188-192 | the property loop computes exactly `LastZone` |
| Catalog.KnownLines | static/js/index.js:185 | the kept line ids are exactly the known ids the station names |
| Catalog.NewStation | static/js/index.js:184-232 | the station built for a record is new, carries the record's fields, its known lines and its zone, and starts with no platforms and loaded |
| Catalog.StationIdsSpec | static/js/index.js:220 | an id is stored exactly when some record read so far carries it |
| Catalog.Wire | static/js/index.js:234-236 | each of the station's lines gains the station under its id; every other line is unchanged |
| Catalog.WireStep | static/js/index.js:234-236 | wiring one more station keeps the wiring exact in both directions |
| Catalog.BuildStep | static/js/index.js:183-237 | one more record keeps the loop invariant: lines keep their other fields, the stored ids are those read, each station comes from the last record with its id, and the wiring is exact |
| Catalog.BuildStations | static/js/index.js:183-237 | after the `forEach` over the station records that invariant holds for all of them |
| Catalog.CompleteCatalog | static/js/index.js:183-241 | after `load`'s station loop and marking, each line comes from its last record and is loaded; each station comes from its last record and names only known lines; each station is in the dictionary of every line it names, and each line holds only such stations |
| StaticApi.RefusedSpec | static/js/index.js:120-130 | a bypassing call is never refused; a normal call is refused before load, and after load exactly when at most 500 ms have passed since the last request |
| StaticApi.PollResult | static/js/index.js:36-67 | `null` exactly for a falsy answer (refused, exhausted, or a `null`, `false`, `0` or `""` body); a throw exactly for a truthy scalar or an object; an array gives the sorted matching arrivals and a non-empty string none |
| StaticApi.SettledSpec | static/js/index.js:32-68 | `getTimetable` answers `undefined` exactly when the station or line is not loaded, `null` exactly when the call was refused or the answer is falsy, a timetable exactly when a truthy array or string came back, and throws exactly for a missing line or a truthy scalar or object; the timetable is sorted, holds only the station's arrivals on the platform asked for, and is empty for a string |
| StaticApi.TflApi.constructor | static/js/index.js:112-117 | the module starts unloaded, with no request time, empty dictionaries, no room and no callback |
| StaticApi.TflApi.Get | static/js/index.js:120-167 | a refused call sends nothing and keeps the last request time; any other call records `now` and returns what the retry loop gives; no other state changes |
| StaticApi.TflApi.StoreCatalog | static/js/index.js:178-241 | a non-array lines body throws with nothing stored; a non-array stations body throws with the lines stored; two arrays give the complete catalog and set `loaded` |
| StaticApi.TflApi.Load | static/js/index.js:170-286 | both reads bypass the policy; `loaded` is set exactly when both bodies are arrays, and then the catalog is as `Catalogued` states; otherwise the failure leaves what was stored so far |
| StaticApi.TflApi.Ws | static/js/index.js:289-302 | before load nothing happens; otherwise the old room is left, then the new room is joined, or the call throws with no room when the line or station is missing; at most one room stays joined |
| StaticApi.TflApi.SetOnWSPush | static/js/index.js:312 | the callback replaces the previous one and nothing else changes |
| StaticApi.TflApi.NormalisePush | static/js/index.js:258-275 | the batch is normalised and sorted like a poll |
| StaticApi.TflApi.GetTimetable | static/js/index.js:32-68 | the answer is `Settled` for the station, the line and the policy's verdict, and the request time is recorded exactly when a request was sent |
| StaticApi.TflApi.LoadPlatforms | static/js/index.js:70-84 | the station is loaded afterwards exactly when a line was given and an array or a string came back, and then holds `BodyPlatforms` of the body; on a throw it keeps its old platforms and stays unloaded |
| StaticApi.AtMostOneRoom | static/js/index.js:295-301 | the hub is in at most one room, the one `ws_active` names |
| StaticApi.ActiveRoomsStep | static/js/index.js:296-301 | adding a room joins it and removing one leaves it |
| StaticApi.LeaveStep | static/js/index.js:295-298 | leaving the active room leaves no room joined |
| StaticApi.NormalisePushSpec | static/js/index.js:258-275 | the normalised batch is sorted, is a permutation of the records' arrivals and loses none |
| StaticApi.PushFilterSpec | static/js/index.js:655-659 | the batch the platform filter hands to the board is sorted and holds each pushed arrival on the platform as often as it was pushed, and no other |
| StaticBoard.ApplyArrivalsSpec | static/js/index.js:426-467 | an update throws exactly on an empty list, leaving "No trains arriving"; once an update has been applied, a non-empty list is skipped with `undefined` and the board unchanged; the first list is shown, its request time kept, and the delay is 10 or 30 |
| StaticBoard.ShownOnce | static/js/index.js:432-440 | after a first list has been shown, a second non-empty list changes nothing |
| StaticBoard.AfterTimetableSpec | static/js/index.js:395-402 | the loop stops exactly after an exception or an empty timetable; the next poll is 5, 10 or 30 seconds away, or at once after a skip; `undefined` and `null` wait 5 seconds |
| StaticBoard.Segment | static/js/index.js:717 | a destructured path segment is present exactly within the segments and is that segment |
| StaticBoard.UrlPathRoundTrip | static/js/index.js:682-692 | reading a written path back gives the written line, station and platform: each is truthy exactly when it was written |
| StaticBoard.PathSegmentsWritten | static/js/index.js:682-688 | the segments of a written path are the written parts followed by one empty piece |
| StaticBoard.Board.constructor | static/js/index.js:318-322 | nothing is selected, `changed` is set, no timer is pending, nothing has been shown and the board is cleared |
| StaticBoard.Board.SetPlatform | static/js/index.js:491-499 | the platform is set, `changed` too, and the path is written when asked |
| StaticBoard.Board.SetStation | static/js/index.js:480-489 | the station is set and the platform cleared, `changed` is set, and the path is written when asked |
| StaticBoard.Board.SetLine | static/js/index.js:469-478 | the line is set and the station and platform cleared, `changed` is set, and the path is written when asked |
| StaticBoard.Board.UpdateUrl | static/js/index.js:682-692 | the address bar holds the path of the current selection and nothing else changes |
| StaticBoard.Board.CancelGetRequestLoop | static/js/index.js:513 | sets `cancel` and changes nothing else |
| StaticBoard.Board.UpdateBoardTextFromArrivals | static/js/index.js:426-467 | the new screen, last query time and result are those of `ApplyArrivals`, and arrivals are shown at most once |
| StaticBoard.Board.QueryFn | static/js/index.js:389-403 | a pending cancel is consumed and ends the loop; a missing station throws; otherwise the poll goes as `Polling` says, and it throws exactly when no timer is left |
| StaticBoard.Board.UpdateBoardText | static/js/index.js:378-424 | an incomplete selection shows the prompt and keeps any timer; an unchanged complete selection does nothing; a changed complete one clears the board, drops the timer and polls at once |
| StaticBoard.Board.PollTimerFires | static/js/index.js:402 | the timer is used up and `query_fn` runs as `QueryFn` states |
| Catalog.StationById | static/js/index.js:635 | a station is found exactly for an id the catalog holds, and is that id's station |
| Catalog.LineById | static/js/index.js:610 | a line is found exactly for an id the catalog holds, and is that id's line |
| StaticBoard.OnSelectChangeLine | static/js/index.js:598-621 | the line is set, or cleared for "", which clears the station and platform; the path is written and the prompt shown |
| StaticBoard.OnSelectChangeStation | static/js/index.js:624-642 | "" clears the station; otherwise the station is set, the room moves to it, the callback becomes the logger, and with a line the platforms are loaded |
| StaticBoard.EnterStation | static/js/index.js:638-641 | the room moves to the line and station, the callback becomes the logger, and with both present the station's platforms are loaded |
| StaticBoard.OnSelectChangePlatform | static/js/index.js:645-664 | "" clears the platform; otherwise the callback filters pushes for the platform, the platform is set and the board updated, which polls when the selection is complete and otherwise shows the prompt and keeps the timer |
| StaticBoard.OnPush | static/js/index.js:252-278 | an empty batch is ignored; with no callback the call throws; the logger does nothing; the platform filter cancels the loop and applies the sorted batch's arrivals on its platform, a sorted batch holding each pushed arrival on the platform as often as it was pushed |
| StaticBoard.RestorePlatform | static/js/index.js:729-736 | it throws exactly when the station is missing or its platforms fail to load; the platform is selected exactly when it is among the loaded platforms |
| StaticBoard.RestoreStation | static/js/index.js:724-737 | a known station is selected only when it serves the line; the platform step runs for a truthy platform |
| StaticBoard.RestoreLine | static/js/index.js:719-738 | a known line is selected; the station step runs for a truthy known station id |
| StaticBoard.Restore | static/js/index.js:711-741 | the line, station and platform read from the path are selected exactly when known, serving the line, and among the loaded platforms; it throws exactly when a platform is in the path but the station is not selected or its platforms fail to load |
| SiteApi.SiteSettledSpec | site/static/js/index.js:31-63 | `getTimetable` never answers `null`: it answers `undefined` exactly when the station or line is not loaded, and a timetable exactly when an array or a string came back, sorted, on the platform asked for, with valid request times, and empty for a string |
| SiteApi.SiteApi.constructor | site/static/js/index.js:136-138 | the module starts unloaded with empty dictionaries |
| SiteApi.SiteApi.Get | site/static/js/index.js:140-179 | before load a normal call is refused; otherwise, and for a bypass, the retry loop's result and waits |
| SiteApi.SiteApi.Load | site/static/js/index.js:182-255 | `loaded` is set exactly when both bodies are arrays, and then the catalog is as `Catalogued` states; a stations failure leaves the lines stored |
| SiteApi.SiteApi.GetTimetable | site/static/js/index.js:31-63 | the answer is `SiteSettled` for the station, the line, whether the module is loaded and what the sends fetched |
| SiteApi.SiteApi.LoadPlatforms | site/static/js/index.js:65-79 | the station is loaded afterwards exactly when a line was given, the module is loaded and an array or a string came back, and then holds `BodyPlatforms` of the body; on a throw it keeps its old platforms |
| SiteBoard.Keys | site/static/js/index.js:587 | the keys of the entries, in order |
| SiteBoard.AssignValue | site/static/js/index.js:583 | after `url_paramaters[k] = v`, `k` holds `v` |
| SiteBoard.AssignOthers | site/static/js/index.js:583 | every other key keeps its value |
| SiteBoard.AssignKeys | site/static/js/index.js:583 | the keys keep their order; a new key goes last |
| SiteBoard.AssignUnique | site/static/js/index.js:583 | each key stays present once |
| SiteBoard.FromPairsSpec | site/static/js/index.js:606-610 | copying the parsed pairs in gives each key once, holding its last value |
| SiteBoard.RenderedMembers | site/static/js/index.js:587-594 | a `key=value` piece is written exactly for an entry whose value is neither `null` nor "" |
| SiteBoard.QueryParses | site/static/js/index.js:585-594 | the query string starts with `?`; without `&` in keys and values it splits on `&` into the listed pieces, in property order |
| SiteBoard.QueryStep | site/static/js/index.js:587-594 | one more entry extends the string as the loop body does: a listed entry adds `key=value`, after `&` unless it is the first |
| SiteBoard.RenderQuery | site/static/js/index.js:585-594 | the loop builds exactly `Query` of the entries |
| SiteBoard.UrlParams.constructor | site/static/js/index.js:606-610 | the dictionary is built from the parsed pairs of the query |
| SiteBoard.UrlParams.Set | site/static/js/index.js:582-597 | the key is assigned and the address bar holds the query of the new entries |
| SiteBoard.AfterTimetableSpec | site/static/js/index.js:340-379 | the loop stops exactly after an exception or an empty timetable; a stale timetable leaves the board alone for 5 seconds; an applied one has a later request time than the one before and waits 10 or 30 seconds |
| SiteBoard.AppendIncreasing | site/static/js/index.js:347-353 | a request time later than every applied one keeps the applied times strictly increasing |
| SiteBoard.SiteBoard.constructor | site/static/js/index.js:269-272 | nothing is selected, `changed` is set, no timer is pending, no time applied and the board is cleared |
| SiteBoard.SiteBoard.SetPlatform | site/static/js/index.js:419-424 | the platform is set, `changed` too, and `platform` is written to the query |
| SiteBoard.SiteBoard.SetStation | site/static/js/index.js:411-417 | the station is set and the platform cleared, `changed` is set, and both parameters are written |
| SiteBoard.SiteBoard.SetLine | site/static/js/index.js:403-409 | the line is set and the station and platform cleared, `changed` is set, and the three parameters are written |
| SiteBoard.SiteBoard.QueryFn | site/static/js/index.js:339-380 | a missing station throws; otherwise the poll goes as `Polling` says, and it throws exactly when no timer is left; applied request times keep increasing |
| SiteBoard.SiteBoard.ApplyTimetable | site/static/js/index.js:342-379 | the new screen, last query time and timer are those of `AfterTimetable`, and it throws exactly when no timer is left |
| SiteBoard.SiteBoard.UpdateBoardText | site/static/js/index.js:328-401 | an incomplete selection shows the prompt and keeps any timer; an unchanged complete one does nothing; a changed complete one clears the board, drops the timer and polls at once |
| SiteBoard.SiteBoard.Refresh | site/static/js/index.js:330-383 | for a changed, complete selection: `changed` is cleared, the board cleared, the timer dropped, and the poll goes as `Polling` says from the cleared board |
| SiteBoard.SiteBoard.PollTimerFires | site/static/js/index.js:379 | the timer is used up and `query_fn` runs as `QueryFn` states |
| SiteBoard.OnSelectChangeLine | site/static/js/index.js:521-544 | the line is set, or cleared for "", which clears the station and platform, and the prompt is shown |
| SiteBoard.OnSelectChangeStation | site/static/js/index.js:547-562 | "" clears the station; otherwise the station is set and, with a line, its platforms are loaded by a normal `get` |
| SiteBoard.OnSelectChangePlatform | site/static/js/index.js:565-577 | "" clears the platform; otherwise the platform is set and the board updated, which polls when the selection is complete and otherwise shows the prompt and keeps the timer |
| SiteBoard.RestorePlatform | site/static/js/index.js:638-645 | it throws exactly when the station is missing or its platforms fail to load; the platform is selected exactly when it is among them |
| SiteBoard.RestoreStation | site/static/js/index.js:633-646 | a known station is selected only when it serves the line; the platform step runs for a truthy platform |
| SiteBoard.Restore | site/static/js/index.js:624-648 | the line, station and platform read from the query are selected exactly when known, serving the line, and among the loaded platforms; it throws exactly when a platform is given but the station is not selected or its platforms fail to load |
| Server.LiteralMatches | server.js:21-29 | a pattern without `*` or `.` matches exactly itself, anchored at both ends |
| Server.RunMatches | server.js:25 | `([^/]+)` matches exactly the non-empty strings without `/` |
| Server.DoubleStarMatches | server.js:24-25 | `**` matches one non-terminator character followed by a non-empty run without `/`, not an arbitrary string |
| Server.FirstSlash | server.js:25 | the index of the first `/`, or the length when there is none |
| Server.RunThenSlash | server.js:25-26 | a run followed by `/` and the rest matches exactly when the first `/` closes a non-empty segment and the rest matches after it |
| Server.GroupsMatch | server.js:14-16 | `n` copies of star-slash match exactly `n` non-empty segments, each closed by `/` |
| Server.CompileStarSlashes | server.js:24-26 | `n` copies of star-slash compile to `n` groups |
| Server.CompiledBoardRoute | server.js:13-16 | each board pattern compiles to `/` followed by 0 to 3 groups |
| Server.BoardRouteMatches | server.js:13-16 | board route `3 + n` matches exactly the board paths of `n` segments |
| Server.SlashGroupsMatch | server.js:13-16 | `/` followed by `n` groups matches exactly the board paths of `n` segments |
| Server.DataRouteMatches | server.js:10 | the data pattern matches exactly `/data/` |
| Server.EmptyRouteMatches | server.js:12 | the empty pattern matches exactly the empty pathname |
| Server.RobotsMatches | server.js:9 | the robots pattern matches `/robots`, any one character but a line terminator, then `txt` |
| Server.DotPattern | server.js:21-29 | a `.` between two plain literals matches one non-terminator character between them |
| Server.PrefixMatches | server.js:21-29 | a plain literal prefix matches exactly the strings that start with it and whose rest matches the rest of the pattern |
| Server.CompileAppend | server.js:23-26 | a plain literal compiles piece by piece |
| Server.OtherRoutesMiss | server.js:9-12 | with a trailing `/` the robots and empty routes never match, and the data route matches exactly `/data/` |
| Server.FirstRoute | server.js:75-88 | the route found is the first whose pattern matches; without one, none matches |
| Server.HandleRequest | server.js:60-91 | the handler's static test, slash test and first-match loop give exactly `Decide` |
| Server.BoardRoutesServeBoard | server.js:13-16 | every route from the fourth on serves the board |
| Server.SlashDecision | server.js:75-91 | with a trailing `/` and no `static` segment: `/data/` is the data page, board paths are the board, anything else is sent to `/` |
| Server.DecideSpec | server.js:60-91 | a pathname whose first segment is `static` is served from the static directory with the first `/static/` removed; a pathname without a trailing `/` other than the two excluded is sent to its `/` form; with a trailing `/`, the data page, the board, or `/` |
| Server.LastPieceEmpty | server.js:68 | the last piece of a split is empty exactly when the string is empty or ends with the separator |
| Server.NoSlashMisses | server.js:68-88 | without a trailing `/`, no route but robots matches a non-empty pathname |
| Server.NoSlashMiss | server.js:10-16 | without a trailing `/`, route `i >= 1` does not match a non-empty pathname |
| Server.NoSlashBoardMiss | server.js:13-16 | without a trailing `/`, no board route matches a non-empty pathname |
| Server.NoSlashRoutes | server.js:68-88 | without a trailing `/`, only the robots route can match a non-empty pathname |
| Server.NoSlashDecision | server.js:68-91 | a non-static pathname without a trailing `/` is sent to its `/` form unless excluded; an excluded one is served by robots when it matches, and sent to `/` otherwise |
| Server.SingleSegment | server.js:63 | a one-segment pathname that is not `static` is not static |
| Server.RobotsName | server.js:9-19 | `/robots.txt` is non-static, has no trailing `/` and matches the robots pattern |
| Server.FaviconName | server.js:19 | `/favicon.ico` is non-static, has no trailing `/` and does not match the robots pattern |
| Server.ExcludedPaths | server.js:19-91 | `/robots.txt` is served and `/favicon.ico` is sent to `/` |
| Server.RootIsBoard | server.js:13 | `/` is the board |
| Server.EmptyPathname | server.js:12-73 | the empty pathname is sent to `/` before the route table is tried |
| Server.RedirectsSettle | server.js:68-91 | every redirect goes to a pathname ending in `/`, whose own decision is served or sent to `/` |
| Server.BoardUrls | server.js:13-73 | 1 to 3 non-empty segments between slashes are static exactly when the first is `static`; otherwise they are the board, except `data`, which is the data page |
| Server.BoardUrlShape | server.js:63-68 | such a pathname ends in `/`, is a board path, and is static exactly when its first segment is `static` |
| Server.DataPath | server.js:10 | such a pathname is `/data/` exactly for the one segment `data` |
| Server.GetContentType | server.js:47-58 | the eight listed extensions map to their types; every other extension maps to `application/octet-stream`; the type is never empty |

## Left out

- **I/O.** `fetch`, `response.json()`, `http.createServer`, `url.parse`, `fs.readFile`, `path.join`, `path.extname` and writing the response are foreign I/O. The network is an oracle fed to each call and the pathname is an input. A decision names the file relative to the server's directory. The 404 for a missing file and the `Content-Type` header are not modelled; `getContentType` is.
- **Rejected fetches.** A `fetch` that rejects and a body that is not JSON are not modelled: every send has a status and a typed body.
- Requests.RetryLoop: covers only answers that carry a status, because a rejected `fetch` promise is not modelled.
- **Push hub.** The hub's connection (`hub.url`, `logging`, `hub.start`) is replaced by the log of room calls made on it.
- **Board text and widgets.** jQuery DOM writes, `clear`, `reset_select`, `reset_select_platform`'s option lists, `update_select_options` and `on_select_style` are UI. The screen model keeps the text of the three board rows. `reset_select_platform`'s call to `loadPlatforms` is modelled.
- **Clock row.** `startClock` and the clock row use `setInterval` and the wall clock, so they are not modelled.
- **Timers.** `setTimeout` and `await` sleeps do not run. A scheduled poll is a pending delay, and `clearTimeout` drops it.
- **Async interleaving.** The callbacks of `forEach(async ...)` in `load`, the unawaited `reset_select_platform` and interleaved handlers are not modelled. Each call runs to its end before the next.
- **`pagetype` branch.** The later script's `pagetype` retry branch is not modelled; `pagetype` is taken as undefined, so a skip returns `undefined`.
- **Earlier script's start-up wait.** The wait loop on `TFL_API.loaded` never ends and is not modelled. `SiteBoard.Restore` models the code after it.
- StaticBoard.OnSelectChangeLine: requires the select to report "" or a catalog line id, the only options it offers. An unknown id would store an `undefined` line, which `reset_select_platform`'s `=== null` test lets through to a throwing `loadPlatforms`; that path is not modelled.
- SiteBoard.OnSelectChangeLine: requires the same of its select, for the same reason.
- StaticBoard.Restore: the model's `location` holds the path as `update_url` writes it, before the browser percent-encodes it, so the segments are read without the script's `decodeURI` (static/js/index.js:717) and no escape is decoded. The `URIError` that `decodeURI` throws on a malformed escape (such as `/%/`) is not modelled. In the script it ends the restore before any selection and before `update_url`; the model reads such a segment as it stands, which is not a catalog id, and then writes the path of whatever it selected, `/` when the bad segment is the first.
- **URLSearchParams.** Parsing `window.location.search` is not modelled: the constructor of `UrlParams` takes the parsed pairs.
- **Key order.** Object key order is insertion order in the model. JavaScript lists integer-like keys first, and that is not modelled.
- **`replaceState`.** The address bar is a field; the history entries `replaceState` makes are not modelled.
- **Dates.** `Date` objects are integer milliseconds or the invalid date.
- **Times and coordinates.** `expected` is kept but never used. `lat` and `lon` are carried as opaque text.
- **Other fields.** The `json_source` and `loaded` fields of arrivals are not modelled, because the code never reads them. Line and station `json_source` are kept as their records.
- **Integer seconds.** `time_to_station` is an integer. A missing or non-numeric value, and with it the NaN branch of the delay formula, is not modelled.
- Rendering.NextDelaySpec: does not cover a non-numeric `time_to_station` slot, because seconds are integers in the model.
- **JSON fields.** Absent or mistyped JSON fields are not modelled: records are typed. `null` and `undefined` are one `None`, except where the code tells them apart (`getTimetable`'s answers, `get`'s results, the `undefined` entry `loadPlatforms` stores for a string body, `reset_select_platform`'s `getLine() === null` test, which no `undefined` line reaches because the line select offers only catalog ids).
- **Regex metacharacters.** `wildcardToRegex` is modelled for the characters the route table uses. `*` and `.` are special and every other character is literal. Other regex metacharacters in a pattern are not modelled.
- **`append_suffix`.** No route sets it, so the served file is always the route's `fp`. The model's routes have no such field.
- **Console output.** `console.warn`, `console.error` and `console.log` are dropped.
- **Commented-out code.** The commented-out platform code and the `UndergroundLine_Platform` class are not part of the code that runs.
- StaticApi.TflApi.Load: does not state that the stations are new objects, distinct from each other and from what existed before, nor that each starts with no platforms and `loaded` set. The catalog predicates speak only of a station's immutable fields, so they keep holding when `loadPlatforms` later changes a station. `Catalog.NewStation` states both facts for each station built.
- SiteApi.SiteApi.Load: does not state that the stations are new objects or how their platforms and `loaded` start, for the same reason.
- Catalog.BuildStations: does not state that the stations it stores are new objects or how their platforms and `loaded` start, for the same reason.
- Catalog.CompleteCatalog: does not state that the stations it stores are new objects or how their platforms and `loaded` start, for the same reason.
