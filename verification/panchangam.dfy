/**
 * The Gowri Panchangam calculation for one city and date: look the city up,
 * fetch the day's sunrise and sunset, shift them to Indian Standard Time,
 * find the weekday's starting planet, and build the eight daytime and eight
 * night-time segments. The geocoder, the sunrise-sunset service and the
 * calendar library are collaborators whose answers are parameters.
 */
module Panchangam {
  import opened Wrappers
  import opened HoraTable
  import opened Segmenter

  /** A resolved city position, in decimal degrees. */
  datatype Coord = Coord(lat: real, lon: real)

  /** Sunrise and sunset of one date, in seconds on the UTC time line. */
  datatype SunTimes = SunTimes(sunrise: real, sunset: real)

  /** One query to the sunrise-sunset service: a position and a date text `YYYY-MM-DD`. */
  datatype SunRequest = SunRequest(at: Coord, date: string)

  /** What the calendar library derives from the date text: the weekday and the next date's text. */
  datatype CalendarDay = CalendarDay(weekday: Weekday, nextDate: string)

  /** One entry of the report, in the order the report lists them. */
  datatype ReportLine =
    | DateLine(date: string, weekday: Weekday)
    | SunriseLine(at: real)
    | SunsetLine(at: real)
    | StartPlanetLine(planet: Planet)
    | BlockText(lines: seq<BlockLine>)
    | BlankLine

  /** The answer shown to the user: a one-line message (the invalid-city text or an error's text), or the report. */
  datatype Outcome = Failed(message: string) | Report(lines: seq<ReportLine>)

  /** The text returned when the city cannot be resolved. */
  const InvalidCityMessage: string := "❌ Invalid city"

  /** The fixed Indian Standard Time offset, 5 hours 30 minutes, in seconds. */
  const IstOffset: real := 19800.0

  /** Number of segments in each of the day and night blocks. */
  const SegmentsPerBlock: nat := 8

  /** Headings of the day and night blocks. */
  const DayTitle: string := "\U{1F31E} DAY GOWRI"
  const NightTitle: string := "\U{1F319} NIGHT GOWRI"

  /**
   * Rotation position that opens the night: eight day segments advance the
   * rotation by eight, which is one full turn and one step.
   */
  function NightStartIndex(dayIdx: nat): (r: nat)
    ensures r < 7 && r == (dayIdx + 1) % 7
    ensures HoraCycle[r] == PlanetAt(dayIdx + SegmentsPerBlock)
  {
    (dayIdx + 8) % 7
  }

  /**
   * The report for a date falling on weekday `w`, whose first segment is ruled
   * by `startPlanet` at rotation position `startIdx`, from the date's and the
   * next date's sun times: the sun times shifted by the fixed offset, the day
   * block from sunrise to sunset starting at `startIdx`, and the night block
   * from sunset to the next sunrise, one rotation step further on.
   */
  function ReportOf(date: string, w: Weekday, startPlanet: Planet, startIdx: nat,
                    today: SunTimes, tomorrow: SunTimes): (r: seq<ReportLine>)
    ensures |r| == 7
    ensures r[0] == DateLine(date, w) && r[3] == StartPlanetLine(startPlanet) && r[5] == BlankLine
    ensures r[4].BlockText? && r[6].BlockText?
  {
    var sunrise := today.sunrise + IstOffset;
    var sunset := today.sunset + IstOffset;
    var nextSunrise := tomorrow.sunrise + IstOffset;
    [ DateLine(date, w),
      SunriseLine(sunrise),
      SunsetLine(sunset),
      StartPlanetLine(startPlanet),
      BlockText(BlockLinesOf(sunrise, sunset, SegmentsPerBlock, startIdx, DayTitle)),
      BlankLine,
      BlockText(BlockLinesOf(sunset, nextSunrise, SegmentsPerBlock, NightStartIndex(startIdx), NightTitle)) ]
  }

  /**
   * The calculation, with the collaborators' answers as inputs: `located` is
   * the geocoder's answer for the city, `calendar` the parse of the date text,
   * `sun` the sunrise-sunset service. Besides the outcome it returns the
   * queries made to the service, in order.
   */
  method Predict(located: Option<Coord>, date: string, calendar: Result<CalendarDay, string>,
                 sun: SunRequest -> Result<SunTimes, string>)
    returns (out: Outcome, requests: seq<SunRequest>)
    // An unresolved city yields exactly the invalid-city text, and the service is never asked.
    ensures located.None? ==> out == Failed(InvalidCityMessage) && requests == []
    // A resolved city: first the date's sun times, then, only if everything before succeeded, the next date's.
    ensures located.Some? ==> 1 <= |requests| <= 2 && requests[0] == SunRequest(located.value, date)
    ensures |requests| == 2 ==>
      sun(requests[0]).Success? && calendar.Success? &&
      requests[1] == SunRequest(located.value, calendar.value.nextDate)
    // A report exactly when every step succeeds; otherwise the message of the step that failed.
    ensures out.Report? <==>
      located.Some? && sun(SunRequest(located.value, date)).Success? && calendar.Success? &&
      sun(SunRequest(located.value, calendar.value.nextDate)).Success?
    ensures out.Failed? && located.Some? ==>
      var last := sun(requests[|requests| - 1]);
      if last.Failure? then out.message == last.error
      else |requests| == 1 && calendar.Failure? && out.message == calendar.error
    // The report is laid out from the date's and the next date's sun times.
    ensures out.Report? ==> |requests| == 2
    ensures out.Report? ==>
      var w := calendar.value.weekday;
      out.lines == ReportOf(date, w, StartPlanet(w), StartIndex(w), sun(SunRequest(located.value, date)).value,
                            sun(SunRequest(located.value, calendar.value.nextDate)).value)
  {
    requests := [];
    if located.None? {
      return Failed(InvalidCityMessage), requests;
    }
    var at := located.value;

    requests := requests + [SunRequest(at, date)];
    var today := sun(SunRequest(at, date));
    if today.Failure? {
      return Failed(today.error), requests;
    }
    var sunrise := today.value.sunrise + IstOffset;
    var sunset := today.value.sunset + IstOffset;

    if calendar.Failure? {
      return Failed(calendar.error), requests;
    }
    var weekday := calendar.value.weekday;
    var startPlanet := StartPlanet(weekday);
    var startIdx := StartIndex(weekday);

    var result: seq<ReportLine> := [];
    result := result + [DateLine(date, weekday)];
    result := result + [SunriseLine(sunrise)];
    result := result + [SunsetLine(sunset)];
    result := result + [StartPlanetLine(startPlanet)];
    assert result == [DateLine(date, weekday), SunriseLine(sunrise), SunsetLine(sunset), StartPlanetLine(startPlanet)];

    var day := Block(sunrise, sunset, SegmentsPerBlock, startIdx, DayTitle);
    result := result + [BlockText(day)];

    var nextDate := calendar.value.nextDate;
    requests := requests + [SunRequest(at, nextDate)];
    var tomorrow := sun(SunRequest(at, nextDate));
    if tomorrow.Failure? {
      return Failed(tomorrow.error), requests;
    }
    var sunriseNext := tomorrow.value.sunrise + IstOffset;

    result := result + [BlankLine];
    var night := Block(sunset, sunriseNext, SegmentsPerBlock, NightStartIndex(startIdx), NightTitle);
    result := result + [BlockText(night)];
    assert result == ReportOf(date, weekday, startPlanet, startIdx, today.value, tomorrow.value);

    out := Report(result);
  }

  /**
   * Day and night blocks join up: the night's first row starts at the sunset
   * that ends the day's last row, and read together the sixteen rows follow
   * the rotation without a break from the weekday's starting position.
   */
  lemma NightContinuesDay(sunrise: real, sunset: real, nextSunrise: real, dayIdx: nat)
    ensures SegmentsOf(sunrise, sunset, SegmentsPerBlock, dayIdx)[SegmentsPerBlock - 1].endsAt == sunset
    ensures SegmentsOf(sunset, nextSunrise, SegmentsPerBlock, NightStartIndex(dayIdx))[0].startsAt == sunset
    ensures forall k :: 0 <= k < SegmentsPerBlock ==>
      SegmentsOf(sunrise, sunset, SegmentsPerBlock, dayIdx)[k].planet == PlanetAt(dayIdx + k)
    ensures forall k :: 0 <= k < SegmentsPerBlock ==>
      SegmentsOf(sunset, nextSunrise, SegmentsPerBlock, NightStartIndex(dayIdx))[k].planet
      == PlanetAt(dayIdx + SegmentsPerBlock + k)
  {
    SegmentsContiguous(sunrise, sunset, SegmentsPerBlock, dayIdx);
    SegmentsContiguous(sunset, nextSunrise, SegmentsPerBlock, NightStartIndex(dayIdx));
    var night := SegmentsOf(sunset, nextSunrise, SegmentsPerBlock, NightStartIndex(dayIdx));
    forall k | 0 <= k < SegmentsPerBlock
      ensures night[k].planet == PlanetAt(dayIdx + SegmentsPerBlock + k)
    {
      assert night[k].planet == PlanetAt(NightStartIndex(dayIdx) + k);
      PlanetAtCongruent(dayIdx + SegmentsPerBlock, k);
    }
  }

  /**
   * In a report every time is the service's UTC time shifted by the same fixed
   * offset: the day block runs from local sunrise to local sunset and opens
   * under the weekday's starting planet, the one the report prints; the night block runs from local
   * sunset to the next local sunrise and opens one rotation step further on.
   */
  lemma ReportSpansLocalSunTimes(date: string, w: Weekday, startPlanet: Planet, startIdx: nat,
                                  today: SunTimes, tomorrow: SunTimes)
    requires startIdx < |HoraCycle| && HoraCycle[startIdx] == startPlanet
    ensures var r := ReportOf(date, w, startPlanet, startIdx, today, tomorrow);
      r[1] == SunriseLine(today.sunrise + IstOffset) && r[2] == SunsetLine(today.sunset + IstOffset) &&
      r[4].BlockText? && |r[4].lines| == SegmentsPerBlock + 1 &&
      r[6].BlockText? && |r[6].lines| == SegmentsPerBlock + 1 &&
      r[4].lines[1] == Row(Segment(1, today.sunrise + IstOffset, r[4].lines[1].segment.endsAt, startPlanet)) &&
      r[3].planet == r[4].lines[1].segment.planet &&
      r[4].lines[SegmentsPerBlock].segment.endsAt == today.sunset + IstOffset &&
      r[6].lines[1] == Row(Segment(1, today.sunset + IstOffset, r[6].lines[1].segment.endsAt,
                                   HoraCycle[(startIdx + 1) % 7])) &&
      r[6].lines[SegmentsPerBlock].segment.endsAt == tomorrow.sunrise + IstOffset
  {
    var sunrise := today.sunrise + IstOffset;
    var sunset := today.sunset + IstOffset;
    var nextSunrise := tomorrow.sunrise + IstOffset;
    BlockSpansInterval(sunrise, sunset, SegmentsPerBlock, startIdx, DayTitle);
    BlockSpansInterval(sunset, nextSunrise, SegmentsPerBlock, NightStartIndex(startIdx), NightTitle);
    assert PlanetAt(startIdx) == HoraCycle[startIdx];
    assert PlanetAt(NightStartIndex(startIdx)) == HoraCycle[NightStartIndex(startIdx)];
  }

  /**
   * A Saturday in Chennai: the service reports sunrise at 00:15 and sunset at
   * 12:45 UTC (here as seconds after UTC midnight); shifted to 05:45 and 18:15,
   * the day splits into eight rows of 5625 seconds, the first 05:45:00 to
   * 07:18:45 under Saturn, and the night opens under Jupiter.
   */
  lemma ChennaiSaturday()
    ensures StartPlanet(5) == Saturn && StartIndex(5) == 0
    ensures var r := ReportOf("2024-06-01", 5, StartPlanet(5), StartIndex(5),
                              SunTimes(900.0, 45900.0), SunTimes(87300.0, 132300.0));
      r[1] == SunriseLine(20700.0) && r[2] == SunsetLine(65700.0) &&
      r[4].lines[1] == Row(Segment(1, 20700.0, 26325.0, Saturn)) &&
      r[4].lines[8] == Row(Segment(8, 60075.0, 65700.0, Saturn)) &&
      r[6].lines[1].segment.planet == Jupiter
  {
    StartIndexTable();
    var day := SegmentsOf(20700.0, 65700.0, SegmentsPerBlock, 0);
    var w := Width(20700.0, 65700.0, SegmentsPerBlock);
    assert w == 5625.0;
    assert day[0].endsAt == 20700.0 + 1.0 * w;
    assert day[7].startsAt == 20700.0 + 7.0 * w && day[7].endsAt == 20700.0 + 8.0 * w;
    assert day[0].planet == PlanetAt(0) && day[7].planet == PlanetAt(7);
    assert NightStartIndex(0) == 1;
    assert SegmentsOf(65700.0, 107100.0, SegmentsPerBlock, 1)[0].planet == PlanetAt(1);
  }
}
