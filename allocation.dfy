/** Splitting one worked interval across the shift windows: the arithmetic of
    `determine_day_load` (task.py:128-149). */
module Allocation {
  import opened Config
  import opened Scan

  /** The start and end hours read from a record's "HH:MM-HH:MM" part; the end
      may be smaller than the start (the interval wraps past midnight). */
  datatype Interval = Interval(hourIn: int, hourOut: int)

  /** Shift name to hours worked in that shift. */
  type Load = map<string, int>

  function Max(a: int, b: int): int { if a >= b then a else b }
  function Min(a: int, b: int): int { if a <= b then a else b }

  /** Hours of [start, end) that fall inside the window, by the half-open
      overlap formula `max(0, min(end, wEnd) - max(start, wStart))`. */
  function Overlap(start: int, end: int, w: Window): (hours: int)
    ensures hours >= 0
    ensures hours <= Max(0, end - start) && hours <= Max(0, w.end - w.start)
  {
    Max(0, Min(end, w.end) - Max(start, w.start))
  }

  /** Reference count: the whole hours h with start <= h < end and
      w.start <= h < w.end, counted one by one. */
  function HoursIn(start: int, end: int, w: Window): nat
    decreases end - start
  {
    if end <= start then 0
    else HoursIn(start, end - 1, w) + (if w.start <= end - 1 < w.end then 1 else 0)
  }

  /** The overlap formula counts exactly the hours the interval and the window
      share. */
  lemma {:induction false} OverlapCountsHours(start: int, end: int, w: Window)
    ensures Overlap(start, end, w) == HoursIn(start, end, w)
    decreases end - start
  {
    if end > start {
      OverlapCountsHours(start, end - 1, w);
    }
  }

  /** Windows [0, a), [a, b), [b, 24) with no gap count every hour of a day
      exactly once. */
  lemma {:induction false} ContiguousWindowsCountOnce(start: int, end: int, a: int, b: int)
    requires 0 <= start <= end <= 24 && 0 <= a <= b <= 24
    ensures HoursIn(start, end, Window(0, a)) + HoursIn(start, end, Window(a, b))
          + HoursIn(start, end, Window(b, 24)) == end - start
    decreases end - start
  {
    if end > start {
      ContiguousWindowsCountOnce(start, end - 1, a, b);
    }
  }

  /** The times of a record's work part, as `re.findall` followed by the
      two-name unpack and `int` of each hour: exactly two matches are needed. */
  function ParseInterval(work: string): (r: Result<Interval>)
    ensures r.Ok? <==> |TimeMatches(work)| == 2
    ensures r.Err? ==> r.error == TimeCount(|TimeMatches(work)|)
    ensures r.Ok? ==> 0 <= r.value.hourIn < 100 && 0 <= r.value.hourOut < 100
    ensures r.Ok? ==> ParseHour(TimeMatches(work)[0]) == Some(r.value.hourIn)
    ensures r.Ok? ==> ParseHour(TimeMatches(work)[1]) == Some(r.value.hourOut)
  {
    var times := TimeMatches(work);
    if |times| != 2 then Err(TimeCount(|times|))
    else Ok(Interval(HourOf(times[0]), HourOf(times[1])))
  }

  /** The end hour the allocation uses: 24 when the start is strictly after the
      end, so an interval never spills into the next day. */
  function EffectiveEnd(iv: Interval): (end: int)
    ensures iv.hourIn <= iv.hourOut ==> end == iv.hourOut
    ensures end == iv.hourOut || end == 24
    ensures iv.hourIn <= 24 ==> iv.hourIn <= end
    ensures iv.hourOut <= 24 ==> end <= 24
  {
    if iv.hourIn > iv.hourOut then 24 else iv.hourOut
  }

  /** The load of one interval: an entry for every shift, zero where the
      interval misses it. */
  function DayLoad(windows: Windows, iv: Interval): (load: Load)
    ensures load.Keys == windows.Keys
    ensures forall k :: k in load ==> load[k] >= 0
  {
    map k | k in windows :: Overlap(iv.hourIn, EffectiveEnd(iv), windows[k])
  }

  /** `determine_day_load` as a function of the shift windows and the work text. */
  function LoadForDay(windows: Windows, work: string): (r: Result<Load>)
    ensures r.Ok? <==> |TimeMatches(work)| == 2
    ensures r.Err? ==> r.error == TimeCount(|TimeMatches(work)|)
    ensures r.Ok? ==> r.value.Keys == windows.Keys
  {
    match ParseInterval(work)
    case Err(e) => Err(e)
    case Ok(iv) => Ok(DayLoad(windows, iv))
  }

  /** An interval wrapping past midnight counts only up to hour 24. */
  lemma MidnightTruncation(windows: Windows, iv: Interval, k: string)
    requires k in windows && iv.hourIn > iv.hourOut
    ensures DayLoad(windows, iv)[k] == HoursIn(iv.hourIn, 24, windows[k])
    ensures DayLoad(windows, iv)[k] <= Max(0, 24 - iv.hourIn)
  {
    OverlapCountsHours(iv.hourIn, 24, windows[k]);
  }

  /** An interval whose start equals its end (such as 00:00-00:00) is not read
      as wrapping: it is empty and every shift gets 0. */
  lemma ZeroLengthInterval(windows: Windows, h: int, k: string)
    requires k in windows
    ensures DayLoad(windows, Interval(h, h))[k] == 0
  {
  }

  /** Under the default windows the shifts of one interval add up to its
      length; a wrapping interval counts up to midnight. */
  lemma HoursConserved(iv: Interval)
    requires 0 <= iv.hourIn <= 24 && iv.hourOut <= 24
    ensures var load := DayLoad(DEFAULT_WINDOWS, iv);
      load["night_shift"] + load["day_shift"] + load["evening_shift"]
        == if iv.hourIn <= iv.hourOut then iv.hourOut - iv.hourIn else 24 - iv.hourIn
  {
    var end := EffectiveEnd(iv);
    OverlapCountsHours(iv.hourIn, end, Window(0, 9));
    OverlapCountsHours(iv.hourIn, end, Window(9, 18));
    OverlapCountsHours(iv.hourIn, end, Window(18, 24));
    ContiguousWindowsCountOnce(iv.hourIn, end, 9, 18);
  }

  /** Any "t1-t2" with two times reads as the hours of t1 and t2. */
  lemma ParseTwoTimes(t1: string, t2: string)
    requires IsTime(t1) && IsTime(t2)
    ensures ParseInterval(t1 + "-" + t2) == Ok(Interval(HourOf(t1), HourOf(t2)))
  {
    TimeMatchesOfInterval(t1, t2);
  }

  /** A day's work from ten to noon. */
  const MORNING := "10:00" + "-" + "12:00"

  /** "10:00-12:00" reads as 10 to 12. */
  lemma ParseIntervalExample()
    ensures ParseInterval(MORNING) == Ok(Interval(10, 12))
  {
    ParseTwoTimes("10:00", "12:00");
  }

  /** A lone time such as "10:00" is a failure, not a partial result. */
  lemma SingleTimeFails()
    ensures ParseInterval("10:00") == Err(TimeCount(1))
  {
    TimeMatchesOfTime("10:00", "");
    assert "10:00" + "" == "10:00";
  }

  /** The load under the default windows, shift by shift. */
  lemma DefaultDayLoad(iv: Interval)
    ensures DayLoad(DEFAULT_WINDOWS, iv) == map[
      "night_shift" := Overlap(iv.hourIn, EffectiveEnd(iv), Window(0, 9)),
      "day_shift" := Overlap(iv.hourIn, EffectiveEnd(iv), Window(9, 18)),
      "evening_shift" := Overlap(iv.hourIn, EffectiveEnd(iv), Window(18, 24))]
  {
    assert DEFAULT_WINDOWS.Keys == {"night_shift", "day_shift", "evening_shift"};
  }

  /** Work from 23:00 to 02:00, past midnight. */
  const OVERNIGHT := "23:00" + "-" + "02:00"

  lemma ParseOvernight()
    ensures ParseInterval(OVERNIGHT) == Ok(Interval(23, 2))
  {
    ParseTwoTimes("23:00", "02:00");
  }

  /** 23:00-02:00 under the default windows: one evening hour and nothing
      else. */
  lemma OvernightExample()
    ensures LoadForDay(DEFAULT_WINDOWS, OVERNIGHT)
         == Ok(map["night_shift" := 0, "day_shift" := 0, "evening_shift" := 1])
  {
    ParseOvernight();
    DefaultDayLoad(Interval(23, 2));
  }
}
