/**
 * What the departure board shows: three text rows, each with a left and a
 * right cell (the clock row is not modelled), the per-arrival row text of
 * `writeArrivalLine`, the prompts of `updateBoardText`, the "stand back"
 * banner, and the delay before the next poll.
 */
module Rendering {
  import opened Wrappers
  import opened Js
  import opened Arrivals

  /** One board row; `centered` is the `center` class on its left cell. A
      cleared cell (`<br>`) is the empty string. */
  datatype Row = Row(left: string, right: string, centered: bool)

  datatype Screen = Screen(line1: Row, line2: Row, line3: Row)

  const Blank: Row := Row("", "", false)

  /** The board after `clear()`. */
  const Cleared: Screen := Screen(Blank, Blank, Blank)

  const NoTrainsText: string := "No trains arriving"
  const BannerText: string := "*** STAND BACK-TRAIN APPROACHING ***"
  const TitleText: string := "London Underground Departures Board"
  const AtPlatform: string := "At Platform"

  /** `clear()` followed by "No trains arriving" on the first row. */
  const NoTrains: Screen := Screen(Row(NoTrainsText, "", false), Blank, Blank)

  /** The third row once the banner is written over it. */
  const StandBack: Row := Row(BannerText, "", true)

  // ------------------------------------------------------------ row text

  /** The right cell of an arrival row (the choice made by `writeArrivalLine`). */
  function TimeText(a: Arrival): string {
    if a.currentLoc == AtPlatform then "Arrived"
    else if a.timeToStation >= 30 then NatToString(RoundedMinutes(a.timeToStation)) + " min"
    else "Due"
  }

  /** A train at the platform reads "Arrived"; otherwise one under 30 seconds
      away reads "Due", and any other reads as the nearest whole number of
      minutes, at least one, followed by " min". */
  lemma TimeTextSpec(a: Arrival)
    ensures TimeText(a) == "Arrived" <==> a.currentLoc == AtPlatform
    ensures TimeText(a) == "Due" <==> a.currentLoc != AtPlatform && a.timeToStation < 30
    ensures a.currentLoc != AtPlatform && a.timeToStation >= 30 ==>
              exists m: nat :: m >= 1 && 60 * m - 30 <= a.timeToStation < 60 * m + 30
                               && TimeText(a) == NatToString(m) + " min"
  {
    if a.currentLoc != AtPlatform && a.timeToStation >= 30 {
      var m := RoundedMinutes(a.timeToStation);
      var t := NatToString(m) + " min";
      assert IsDigit(t[0]);
      assert t != "Arrived" by { assert "Arrived"[0] == 'A'; }
      assert t != "Due" by { assert "Due"[0] == 'D'; }
    }
  }

  /** The row `writeArrivalLine(a, index, _)` writes: "<index>  <towards>"
      on the left, the time text on the right, not centred. */
  function ArrivalRow(index: nat, a: Arrival): (r: Row)
    ensures !r.centered && r.right == TimeText(a)
    ensures r.left == NatToString(index) + "  " + a.towards
  {
    Row(NatToString(index) + "  " + a.towards, TimeText(a), false)
  }

  /** `writeArrivalLine(arrivals[i], i + 1, i + 1)`: a row with no arrival
      behind it is left as it was. */
  function WriteArrivalLine(old_: Row, arrivals: seq<Arrival>, i: nat): (r: Row)
    ensures i < |arrivals| ==> r == ArrivalRow(i + 1, arrivals[i])
    ensures i >= |arrivals| ==> r == old_
  {
    if i < |arrivals| then ArrivalRow(i + 1, arrivals[i]) else old_
  }

  /** The three arrival rows written over `screen`, then the banner over the
      third row when the first train is under ten seconds away. Row one
      always shows the soonest train; rows two and three show the next ones
      where there are any and keep their old text otherwise, so the banner
      is on row three exactly when the soonest train is under ten seconds
      away or a banner from before was left standing. */
  function ShowArrivals(screen: Screen, arrivals: seq<Arrival>): (s: Screen)
    requires |arrivals| >= 1
    ensures s.line1 == ArrivalRow(1, arrivals[0])
    ensures s.line2 == (if |arrivals| >= 2 then ArrivalRow(2, arrivals[1]) else screen.line2)
    ensures s.line3 == StandBack <==>
              arrivals[0].timeToStation < 10 || (|arrivals| < 3 && screen.line3 == StandBack)
    ensures arrivals[0].timeToStation >= 10 ==>
              s.line3 == (if |arrivals| >= 3 then ArrivalRow(3, arrivals[2]) else screen.line3)
  {
    var row3 := WriteArrivalLine(screen.line3, arrivals, 2);
    Screen(
      WriteArrivalLine(screen.line1, arrivals, 0),
      WriteArrivalLine(screen.line2, arrivals, 1),
      if arrivals[0].timeToStation < 10 then StandBack else row3)
  }

  // ------------------------------------------------------------- prompts

  /** What `updateBoardText` shows while the selection is incomplete. */
  function Prompt(lineName: Option<string>, stationSelected: bool): (s: Screen)
    ensures s.line1 == Row(TitleText, "", false) && s.line3 == Blank
    ensures lineName.None? ==> s.line2 == Row("Select a line and station...", "", false)
    ensures lineName.Some? && !stationSelected ==>
              s.line2 == Row("Select a station on the " + lineName.value + " line...", "", false)
    ensures lineName.Some? && stationSelected ==> s.line2 == Row("Select a platform...", "", false)
  {
    Screen(
      Row(TitleText, "", false),
      Row(
        match lineName
        case None => "Select a line and station..."
        case Some(n) =>
          if !stationSelected then "Select a station on the " + n + " line..." else "Select a platform...",
        "", false),
      Blank)
  }

  // ---------------------------------------------------------- next delay

  /** `arrivals[i]?.time_to_station % 30 || 30`. */
  function Slot(arrivals: seq<Arrival>, i: nat): (r: int)
    ensures 0 < r <= 30 || (i < |arrivals| && arrivals[i].timeToStation < 0 && -30 < r < 0)
  {
    if i < |arrivals| && Rem30(arrivals[i].timeToStation) != 0 then Rem30(arrivals[i].timeToStation) else 30
  }

  function Min(a: int, b: int): int { if a <= b then a else b }
  function Max(a: int, b: int): int { if a >= b then a else b }

  /** `Math.max(Math.min(slot0, slot1, slot2, 30), 5)`. */
  function RawDelay(arrivals: seq<Arrival>): (r: int)
    ensures 5 <= r <= 30
  {
    Max(Min(Min(Min(Slot(arrivals, 0), Slot(arrivals, 1)), Slot(arrivals, 2)), 30), 5)
  }

  /** The seconds before the next poll: 10 when a train is close, else 30. */
  function NextDelay(arrivals: seq<Arrival>): int {
    if RawDelay(arrivals) < 30 then 10 else 30
  }

  /** The delay is 10 or 30, and it is 30 exactly when each of the first
      three arrivals that exist is a whole number of half-minutes away. */
  lemma NextDelaySpec(arrivals: seq<Arrival>)
    ensures NextDelay(arrivals) == 10 || NextDelay(arrivals) == 30
    ensures NextDelay(arrivals) == 30 <==>
              forall i :: 0 <= i < 3 && i < |arrivals| ==> arrivals[i].timeToStation % 30 == 0
  {
    if forall i :: 0 <= i < 3 && i < |arrivals| ==> arrivals[i].timeToStation % 30 == 0 {
      assert Slot(arrivals, 0) == 30 && Slot(arrivals, 1) == 30 && Slot(arrivals, 2) == 30;
    } else {
      var i :| 0 <= i < 3 && i < |arrivals| && arrivals[i].timeToStation % 30 != 0;
      assert Slot(arrivals, i) < 30;
    }
  }

  /** Two trains 45 and 600 seconds away: the first leaves a 15-second
      slot, so the board polls again after 10 seconds. */
  lemma NextDelayNearTrain(arrivals: seq<Arrival>)
    requires |arrivals| == 2 && arrivals[0].timeToStation == 45 && arrivals[1].timeToStation == 600
    ensures RawDelay(arrivals) == 15 && NextDelay(arrivals) == 10
  {
    assert Slot(arrivals, 0) == 15 && Slot(arrivals, 1) == 30 && Slot(arrivals, 2) == 30;
  }
}
