/** src/pages/industry/History.tsx: the history page keeps the most recent
    hourly points for the selected time range. */
module History {
  import opened Types

  /** '6h' | '12h' | '24h' | '7d'. */
  datatype TimeRange = SixHours | TwelveHours | DayRange | WeekRange

  /** `hoursMap`. */
  function Hours(r: TimeRange): (h: nat)
    ensures h == 6 || h == 12 || h == 24 || h == 168
  {
    match r
    case SixHours => 6
    case TwelveHours => 12
    case DayRange => 24
    case WeekRange => 168
  }

  /** The ranges are ordered by the hours they cover. */
  lemma HoursOrdered()
    ensures Hours(SixHours) < Hours(TwelveHours) < Hours(DayRange) < Hours(WeekRange)
    ensures Hours(WeekRange) == 7 * Hours(DayRange)
  {
  }

  function Min(a: int, b: int): int
  {
    if a <= b then a else b
  }

  /** `s.slice(start)` for an integer `start`: a negative start counts from
      the end (clamped to the whole list), a non-negative one from the front;
      `slice(-0)` is `slice(0)`. The result is always a suffix. */
  function SliceFrom<T>(s: seq<T>, start: int): (r: seq<T>)
    ensures start < 0 ==> |r| == Min(-start, |s|)
    ensures start >= 0 ==> |r| == |s| - Min(start, |s|)
    ensures r == s[|s| - |r|..]
  {
    if start < 0 then (if |s| + start >= 0 then s[|s| + start..] else s)
    else s[Min(start, |s|)..]
  }

  /** `getFilteredData()`: the last `min(hours, n)` points. Its length is
      that minimum, it is a suffix of the history, and empty history gives
      an empty result (the start is then `-0`). */
  function FilteredData(data: seq<HistoricalData>, range: TimeRange): (r: seq<HistoricalData>)
    ensures |r| == Min(Hours(range), |data|)
    ensures r == data[|data| - |r|..]
    ensures data == [] ==> r == []
    ensures |data| <= Hours(range) ==> r == data
  {
    SliceFrom(data, -Min(Hours(range), |data|))
  }

  /** A longer range's result ends with the shorter range's result. */
  lemma LongerRangeExtends(data: seq<HistoricalData>, short: TimeRange, long: TimeRange)
    requires Hours(short) <= Hours(long)
    ensures |FilteredData(data, short)| <= |FilteredData(data, long)|
    ensures var l := FilteredData(data, long);
            FilteredData(data, short) == l[|l| - |FilteredData(data, short)|..]
  {
    var s, l := FilteredData(data, short), FilteredData(data, long);
    assert l[|l| - |s|..] == data[|data| - |s|..];
  }

  /** With the 25 hourly points of the generated history, '6h', '12h' and
      '24h' keep their last 6, 12 and 24 points, and '7d' keeps all 25. */
  lemma GeneratedHistoryRanges(data: seq<HistoricalData>)
    requires |data| == 25
    ensures FilteredData(data, SixHours) == data[19..]
    ensures FilteredData(data, TwelveHours) == data[13..]
    ensures FilteredData(data, DayRange) == data[1..]
    ensures FilteredData(data, WeekRange) == data
  {
  }
}
