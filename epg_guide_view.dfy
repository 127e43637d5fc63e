/**
 * Layout arithmetic of the EPG grid
 * (qp-discovery-ui/src/views/EpgGuideView.tsx): a programme tile is clipped
 * to the displayed day and is 200 units wide per hour. Times are epoch
 * milliseconds.
 */
module EpgGuideView {
  const RelativeHourWidth: int := 200
  const MillisPerHour: int := 3600 * 1000

  /**
   * `relativeWidth`: 200 units per hour of the span, rounded down,
   * computed exactly on integers (Dafny's division by a positive number
   * rounds down, as `Math.floor` does).
   */
  function RelativeWidth(start: int, end: int): (r: int)
    ensures r * MillisPerHour <= RelativeHourWidth * (end - start) < (r + 1) * MillisPerHour
  {
    (RelativeHourWidth * (end - start)) / MillisPerHour
  }

  /** One hour is 200 units, and k whole hours are 200k units. */
  lemma HourWidth(start: int, hours: int)
    ensures RelativeWidth(start, start + hours * MillisPerHour) == RelativeHourWidth * hours
  {
    var r := RelativeWidth(start, start + hours * MillisPerHour);
    assert RelativeHourWidth * (hours * MillisPerHour) == (RelativeHourWidth * hours) * MillisPerHour;
  }

  /** The width is never negative for a tile that does not end before it starts, and it grows with the end. */
  lemma RelativeWidthMonotone(start: int, end1: int, end2: int)
    requires start <= end1 <= end2
    ensures 0 <= RelativeWidth(start, end1) <= RelativeWidth(start, end2)
  {
  }

  /** A later start gives a narrower tile. */
  lemma RelativeWidthStart(start1: int, start2: int, end: int)
    requires start1 <= start2
    ensures RelativeWidth(start2, end) <= RelativeWidth(start1, end)
  {
  }

  /** A schedule tile: the part of an airing drawn on the day's row. */
  datatype Tile = Tile(start: int, end: int)

  /** `renderScheduleItem`'s clipping: the later of the two starts and the earlier of the two ends. */
  function ScheduleTile(airingStart: int, airingEnd: int, dayStart: int, dayEnd: int): (t: Tile)
    ensures t.start >= airingStart && t.start >= dayStart && (t.start == airingStart || t.start == dayStart)
    ensures t.end <= airingEnd && t.end <= dayEnd && (t.end == airingEnd || t.end == dayEnd)
  {
    Tile(if airingStart > dayStart then airingStart else dayStart,
         if airingEnd < dayEnd then airingEnd else dayEnd)
  }

  /** An airing that overlaps the day gives a tile inside the day, no wider than the day itself. */
  lemma TileWithinDay(airingStart: int, airingEnd: int, dayStart: int, dayEnd: int)
    requires airingStart <= airingEnd && dayStart <= dayEnd
    requires airingStart <= dayEnd && dayStart <= airingEnd
    ensures var t := ScheduleTile(airingStart, airingEnd, dayStart, dayEnd);
            dayStart <= t.start <= t.end <= dayEnd &&
            0 <= RelativeWidth(t.start, t.end) <= RelativeWidth(dayStart, dayEnd)
  {
    var t := ScheduleTile(airingStart, airingEnd, dayStart, dayEnd);
    RelativeWidthMonotone(t.start, t.end, dayEnd);
    RelativeWidthStart(dayStart, t.start, dayEnd);
  }

  /** An airing that lies inside the day is drawn unclipped. */
  lemma TileInsideDayUnclipped(airingStart: int, airingEnd: int, dayStart: int, dayEnd: int)
    requires dayStart <= airingStart && airingEnd <= dayEnd
    ensures ScheduleTile(airingStart, airingEnd, dayStart, dayEnd) == Tile(airingStart, airingEnd)
  {
  }
}
