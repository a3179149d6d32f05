/** Static configuration of the payroll engine (task.py:7-20) and the
    normalisation of "HH:MM" shift bounds to whole hours (task.py:106-125). */
module Config {

  datatype Option<T> = None | Some(value: T)

  /** Why a computation stops. Each kind stands for an exception the Python
      code lets escape. */
  datatype Error =
    | BadShift               // a shift bound list is not two integer strings (ValueError)
    | NoDayCode              // a record token contains no letter (IndexError)
    | TimeCount(found: nat)  // a record token does not hold exactly two dd:dd times (unpack ValueError)

  datatype Result<T> = Ok(value: T) | Err(error: Error)

  /** A shift window in whole hours; hours are counted in [start, end). */
  datatype Window = Window(start: int, end: int)

  /** Shift name to window, after normalisation (`self.shifts`). */
  type Windows = map<string, Window>
  /** Shift name to hourly rate, for one day. */
  type Rates = map<string, int>
  /** Day code to that day's rates (`self.prices`). */
  type RateTable = map<string, Rates>

  /** The raw shift definitions, as start and end "HH:MM" strings. */
  const SHIFTS: map<string, seq<string>> := map[
    "night_shift" := ["00:01", "09:00"],
    "day_shift" := ["09:01", "18:00"],
    "evening_shift" := ["18:01", "00:00"]
  ]

  const WEEKDAY_RATES: Rates := map["night_shift" := 25, "day_shift" := 15, "evening_shift" := 20]
  const WEEKEND_RATES: Rates := map["night_shift" := 30, "day_shift" := 20, "evening_shift" := 25]

  /** The rate table every engine uses. */
  const HOURLY_PRICES: RateTable := map[
    "MO" := WEEKDAY_RATES, "TU" := WEEKDAY_RATES, "WE" := WEEKDAY_RATES,
    "TH" := WEEKDAY_RATES, "FR" := WEEKDAY_RATES,
    "SA" := WEEKEND_RATES, "SU" := WEEKEND_RATES
  ]

  /** The windows the default shifts normalise to: night [0,9), day [9,18),
      evening [18,24), with no gap between them. */
  const DEFAULT_WINDOWS: Windows := map[
    "night_shift" := Window(0, 9),
    "day_shift" := Window(9, 18),
    "evening_shift" := Window(18, 24)
  ]

  predicate IsDigit(c: char) { '0' <= c <= '9' }

  predicate AllDigits(s: string) { forall i :: 0 <= i < |s| ==> IsDigit(s[i]) }

  /** The decimal value of a string of digits. */
  function DigitsValue(s: string): nat
    requires AllDigits(s)
    decreases |s|
  {
    if s == [] then 0 else 10 * DigitsValue(s[..|s| - 1]) + (s[|s| - 1] as int - '0' as int)
  }

  /** Python's `int` on a string: an optional sign followed by at least one
      digit; anything else is refused. */
  function ParseInt(t: string): (r: Option<int>)
    ensures t != [] && AllDigits(t) ==> r == Some(DigitsValue(t))
    ensures |t| >= 2 && t[0] == '-' && AllDigits(t[1..]) ==> r == Some(-(DigitsValue(t[1..]) as int))
    ensures |t| >= 2 && t[0] == '+' && AllDigits(t[1..]) ==> r == Some(DigitsValue(t[1..]))
    ensures r.Some? ==>
      || (t != [] && AllDigits(t))
      || (|t| >= 2 && (t[0] == '-' || t[0] == '+') && AllDigits(t[1..]))
  {
    if |t| > 0 && (t[0] == '-' || t[0] == '+') then
      var digits := t[1..];
      if digits != [] && AllDigits(digits) then
        var n: int := DigitsValue(digits);
        Some(if t[0] == '-' then -n else n)
      else None
    else if t != [] && AllDigits(t) then Some(DigitsValue(t))
    else None
  }

  /** `s.split(":")[0]`: the longest prefix of `s` without a colon. */
  function BeforeColon(s: string): (r: string)
    ensures r <= s && ':' !in r
    ensures |r| < |s| ==> s[|r|] == ':'
  {
    if s == [] || s[0] == ':' then [] else [s[0]] + BeforeColon(s[1..])
  }

  /** `str(n)` for a natural number: its decimal digits, most significant
      first. */
  function Decimal(n: nat): (s: string)
    ensures s != [] && AllDigits(s)
  {
    var last := [(n % 10 + '0' as int) as char];
    if n < 10 then last else Decimal(n / 10) + last
  }

  /** Reading back the decimal digits of n gives n. */
  lemma {:induction false} DecimalValue(n: nat)
    ensures DigitsValue(Decimal(n)) == n
  {
    var s := Decimal(n);
    if n >= 10 {
      DecimalValue(n / 10);
      assert s[..|s| - 1] == Decimal(n / 10);
    }
  }

  /** `int(str(n)) == n`. */
  lemma ParseIntDecimal(n: nat)
    ensures ParseInt(Decimal(n)) == Some(n)
  {
    DecimalValue(n);
  }

  /** The hour of an "HH:MM" bound: the integer before the first colon. */
  function ParseHour(s: string): (r: Option<int>)
    ensures ':' !in s ==> r == ParseInt(s)
    ensures s != [] && s[0] == ':' ==> r == None
  {
    ColonFreeWhole(s);
    ParseInt(BeforeColon(s))
  }

  /** A bound without a colon is kept whole by the split. */
  lemma {:induction false} ColonFreeWhole(s: string)
    ensures ':' !in s ==> BeforeColon(s) == s
  {
    if s != [] && ':' !in s {
      ColonFreeWhole(s[1..]);
    }
  }

  /** One shift's `[start, end]` list as a window; an end hour of 0 stands for
      midnight at the end of the day and becomes 24. */
  function ParseWindow(bounds: seq<string>): (r: Option<Window>)
    ensures r.Some? <==> |bounds| == 2 && ParseHour(bounds[0]).Some? && ParseHour(bounds[1]).Some?
    ensures r.Some? ==> ParseHour(bounds[0]) == Some(r.value.start)
    ensures r.Some? ==> r.value.end == (if ParseHour(bounds[1]).value == 0 then 24 else ParseHour(bounds[1]).value)
    ensures r.Some? ==> r.value.end != 0
  {
    if |bounds| != 2 then None
    else match (ParseHour(bounds[0]), ParseHour(bounds[1]))
      case (Some(h_in), Some(h_out)) => Some(Window(h_in, if h_out == 0 then 24 else h_out))
      case _ => None
  }

  /** What `update_shifts` stores: every shift's window, or nothing when one
      of them cannot be parsed. */
  function NormalizeShifts(raw: map<string, seq<string>>): (r: Option<Windows>)
    ensures r.Some? <==> forall k :: k in raw ==> ParseWindow(raw[k]).Some?
    ensures r.Some? ==> r.value.Keys == raw.Keys
    ensures r.Some? ==> forall k :: k in raw ==> ParseWindow(raw[k]) == Some(r.value[k])
    ensures r.Some? ==> forall k :: k in r.value ==> r.value[k].end != 0
  {
    if forall k :: k in raw ==> ParseWindow(raw[k]).Some? then
      Some(map k | k in raw :: ParseWindow(raw[k]).value)
    else None
  }

  lemma {:induction false} BeforeColonOfBound(h: string, m: string)
    requires ':' !in h
    ensures BeforeColon(h + ":" + m) == h
  {
    if h != [] {
      assert (h + ":" + m)[1..] == h[1..] + ":" + m;
      BeforeColonOfBound(h[1..], m);
    }
  }

  /** Only the hour of an "HH:MM" bound matters: the minutes are dropped. */
  lemma HourDropsMinutes(h: string, m: string)
    requires ':' !in h
    ensures ParseHour(h + ":" + m) == ParseInt(h)
  {
    BeforeColonOfBound(h, m);
  }

  /** A window written "HH:MM" to "HH:MM" becomes [HH, HH'], with an end hour
      of 0 read as 24, whatever the minutes are. */
  lemma ShiftNormalisation(h1: string, m1: string, h2: string, m2: string)
    requires h1 != [] && AllDigits(h1) && h2 != [] && AllDigits(h2)
    ensures ParseWindow([h1 + ":" + m1, h2 + ":" + m2])
         == Some(Window(DigitsValue(h1), if DigitsValue(h2) == 0 then 24 else DigitsValue(h2)))
  {
    HourDropsMinutes(h1, m1);
    HourDropsMinutes(h2, m2);
  }

  /** The value of a two-digit string. */
  lemma TwoDigits(hh: string)
    requires |hh| == 2 && AllDigits(hh)
    ensures DigitsValue(hh) == 10 * (hh[0] as int - '0' as int) + (hh[1] as int - '0' as int)
  {
    var first := hh[..1];
    assert first[..0] == [] && first[0] == hh[0];
    assert DigitsValue(first) == hh[0] as int - '0' as int;
    assert hh[..2 - 1] == first && hh[2 - 1] == hh[1];
  }

  /** The hour of an "HH:MM" bound is the value of its two leading digits. */
  lemma BoundHour(bound: string)
    requires |bound| == 5 && IsDigit(bound[0]) && IsDigit(bound[1]) && bound[2] == ':'
    ensures ParseHour(bound) == Some(10 * (bound[0] as int - '0' as int) + (bound[1] as int - '0' as int))
  {
    assert bound == bound[..2] + ":" + bound[3..];
    HourDropsMinutes(bound[..2], bound[3..]);
    TwoDigits(bound[..2]);
  }

  lemma NightWindow()
    ensures ParseWindow(SHIFTS["night_shift"]) == Some(Window(0, 9))
  {
    BoundHour("00:01");
    BoundHour("09:00");
  }

  lemma DayWindow()
    ensures ParseWindow(SHIFTS["day_shift"]) == Some(Window(9, 18))
  {
    BoundHour("09:01");
    BoundHour("18:00");
  }

  lemma EveningWindow()
    ensures ParseWindow(SHIFTS["evening_shift"]) == Some(Window(18, 24))
  {
    BoundHour("18:01");
    BoundHour("00:00");
  }

  lemma DefaultWindowsParse()
    ensures SHIFTS.Keys == DEFAULT_WINDOWS.Keys
    ensures forall k :: k in SHIFTS ==> ParseWindow(SHIFTS[k]) == Some(DEFAULT_WINDOWS[k])
  {
    assert SHIFTS.Keys == {"night_shift", "day_shift", "evening_shift"};
    forall k | k in SHIFTS ensures ParseWindow(SHIFTS[k]) == Some(DEFAULT_WINDOWS[k]) {
      if k == "night_shift" {
        NightWindow();
      } else if k == "day_shift" {
        DayWindow();
      } else {
        EveningWindow();
      }
    }
  }

  /** The default shifts normalise to night [0,9), day [9,18), evening [18,24). */
  lemma DefaultShiftsNormalised()
    ensures NormalizeShifts(SHIFTS) == Some(DEFAULT_WINDOWS)
  {
    DefaultWindowsParse();
    var w := NormalizeShifts(SHIFTS);
    assert w.value == DEFAULT_WINDOWS;
  }
}
