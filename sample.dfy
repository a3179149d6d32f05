/** The example week of the `determine_shift_load` and `calcaulate_payment`
    documentation (task.py:158, task.py:210), worked through under the default
    shifts and rates: it pays 215. */
module SampleWeek {
  import opened Config
  import opened Scan
  import opened Allocation
  import opened Workload
  import opened Pricing

  const MONDAY := "MO10:00-12:00"
  const TUESDAY := "TU10:00-12:00"
  const THURSDAY := "TH01:00-03:00"
  const SATURDAY := "SA14:00-18:00"
  const SUNDAY := "SU20:00-21:00"

  /** The record, one day token after another. */
  const SAMPLE := MONDAY + "," + TUESDAY + "," + THURSDAY + "," + SATURDAY + "," + SUNDAY

  lemma SampleTokens()
    ensures Split(SAMPLE, ',') == [MONDAY, TUESDAY, THURSDAY, SATURDAY, SUNDAY]
  {
    var tokens := [MONDAY, TUESDAY, THURSDAY, SATURDAY, SUNDAY];
    assert Join(tokens[4..], ',') == SUNDAY;
    assert Join(tokens[3..], ',') == SATURDAY + "," + SUNDAY;
    assert Join(tokens[2..], ',') == THURSDAY + "," + SATURDAY + "," + SUNDAY;
    assert Join(tokens[1..], ',') == TUESDAY + "," + THURSDAY + "," + SATURDAY + "," + SUNDAY;
    assert Join(tokens, ',') == SAMPLE;
    SplitJoin(tokens, ',');
  }

  lemma MondayToken()
    ensures TokenLoad(DEFAULT_WINDOWS, MONDAY) == Ok(("MO", DayLoad(DEFAULT_WINDOWS, Interval(10, 12))))
  {
    RecordToken(DEFAULT_WINDOWS, MONDAY, "MO", "10:00", "12:00", 10, 12);
  }

  lemma TuesdayToken()
    ensures TokenLoad(DEFAULT_WINDOWS, TUESDAY) == Ok(("TU", DayLoad(DEFAULT_WINDOWS, Interval(10, 12))))
  {
    RecordToken(DEFAULT_WINDOWS, TUESDAY, "TU", "10:00", "12:00", 10, 12);
  }

  lemma ThursdayToken()
    ensures TokenLoad(DEFAULT_WINDOWS, THURSDAY) == Ok(("TH", DayLoad(DEFAULT_WINDOWS, Interval(1, 3))))
  {
    RecordToken(DEFAULT_WINDOWS, THURSDAY, "TH", "01:00", "03:00", 1, 3);
  }

  lemma SaturdayToken()
    ensures TokenLoad(DEFAULT_WINDOWS, SATURDAY) == Ok(("SA", DayLoad(DEFAULT_WINDOWS, Interval(14, 18))))
  {
    RecordToken(DEFAULT_WINDOWS, SATURDAY, "SA", "14:00", "18:00", 14, 18);
  }

  lemma SundayToken()
    ensures TokenLoad(DEFAULT_WINDOWS, SUNDAY) == Ok(("SU", DayLoad(DEFAULT_WINDOWS, Interval(20, 21))))
  {
    RecordToken(DEFAULT_WINDOWS, SUNDAY, "SU", "20:00", "21:00", 20, 21);
  }

  /** The load of each sample day. */
  function SampleLoads(): DayLoads
  {
    map[
      "MO" := DayLoad(DEFAULT_WINDOWS, Interval(10, 12)),
      "TU" := DayLoad(DEFAULT_WINDOWS, Interval(10, 12)),
      "TH" := DayLoad(DEFAULT_WINDOWS, Interval(1, 3)),
      "SA" := DayLoad(DEFAULT_WINDOWS, Interval(14, 18)),
      "SU" := DayLoad(DEFAULT_WINDOWS, Interval(20, 21))]
  }

  /** The outcomes of five tokens, in order. */
  lemma EntriesOfFive(windows: Windows, tokens: seq<string>)
    requires |tokens| == 5
    ensures Entries(windows, tokens)
         == [TokenLoad(windows, tokens[0]), TokenLoad(windows, tokens[1]), TokenLoad(windows, tokens[2]),
             TokenLoad(windows, tokens[3]), TokenLoad(windows, tokens[4])]
  {
  }

  lemma SampleEntries()
    ensures Entries(DEFAULT_WINDOWS, Split(SAMPLE, ','))
         == [Ok(("MO", DayLoad(DEFAULT_WINDOWS, Interval(10, 12)))),
             Ok(("TU", DayLoad(DEFAULT_WINDOWS, Interval(10, 12)))),
             Ok(("TH", DayLoad(DEFAULT_WINDOWS, Interval(1, 3)))),
             Ok(("SA", DayLoad(DEFAULT_WINDOWS, Interval(14, 18)))),
             Ok(("SU", DayLoad(DEFAULT_WINDOWS, Interval(20, 21))))]
  {
    SampleTokens();
    EntriesOfFive(DEFAULT_WINDOWS, [MONDAY, TUESDAY, THURSDAY, SATURDAY, SUNDAY]);
    MondayToken();
    TuesdayToken();
    ThursdayToken();
    SaturdayToken();
    SundayToken();
  }

  /** Five successful entries are stored one after the other. */
  lemma CollectFive(a: (string, Load), b: (string, Load), c: (string, Load), d: (string, Load), e: (string, Load))
    ensures Collect([Ok(a), Ok(b), Ok(c), Ok(d), Ok(e)])
         == Ok(map[a.0 := a.1][b.0 := b.1][c.0 := c.1][d.0 := d.1][e.0 := e.1])
  {
    CollectStep([], a.0, a.1);
    assert [] + [Ok(a)] == [Ok(a)];
    CollectStep([Ok(a)], b.0, b.1);
    assert [Ok(a)] + [Ok(b)] == [Ok(a), Ok(b)];
    CollectStep([Ok(a), Ok(b)], c.0, c.1);
    assert [Ok(a), Ok(b)] + [Ok(c)] == [Ok(a), Ok(b), Ok(c)];
    CollectStep([Ok(a), Ok(b), Ok(c)], d.0, d.1);
    assert [Ok(a), Ok(b), Ok(c)] + [Ok(d)] == [Ok(a), Ok(b), Ok(c), Ok(d)];
    CollectStep([Ok(a), Ok(b), Ok(c), Ok(d)], e.0, e.1);
    assert [Ok(a), Ok(b), Ok(c), Ok(d)] + [Ok(e)] == [Ok(a), Ok(b), Ok(c), Ok(d), Ok(e)];
  }

  lemma SampleShiftLoad()
    ensures ShiftLoadOf(DEFAULT_WINDOWS, SAMPLE) == Ok(SampleLoads())
  {
    SampleEntries();
    CollectFive(("MO", DayLoad(DEFAULT_WINDOWS, Interval(10, 12))),
                ("TU", DayLoad(DEFAULT_WINDOWS, Interval(10, 12))),
                ("TH", DayLoad(DEFAULT_WINDOWS, Interval(1, 3))),
                ("SA", DayLoad(DEFAULT_WINDOWS, Interval(14, 18))),
                ("SU", DayLoad(DEFAULT_WINDOWS, Interval(20, 21))));
  }

  /** Two weekday day-shift hours. */
  lemma MondayAmount()
    ensures DayAmount(WEEKDAY_RATES, DayLoad(DEFAULT_WINDOWS, Interval(10, 12)), DEFAULT_WINDOWS.Keys) == 30
  {
    DefaultDayAmount(WEEKDAY_RATES, Interval(10, 12));
  }

  /** Two weekday night-shift hours. */
  lemma ThursdayAmount()
    ensures DayAmount(WEEKDAY_RATES, DayLoad(DEFAULT_WINDOWS, Interval(1, 3)), DEFAULT_WINDOWS.Keys) == 50
  {
    DefaultDayAmount(WEEKDAY_RATES, Interval(1, 3));
  }

  /** Four weekend day-shift hours. */
  lemma SaturdayAmount()
    ensures DayAmount(WEEKEND_RATES, DayLoad(DEFAULT_WINDOWS, Interval(14, 18)), DEFAULT_WINDOWS.Keys) == 80
  {
    DefaultDayAmount(WEEKEND_RATES, Interval(14, 18));
  }

  /** One weekend evening-shift hour. */
  lemma SundayAmount()
    ensures DayAmount(WEEKEND_RATES, DayLoad(DEFAULT_WINDOWS, Interval(20, 21)), DEFAULT_WINDOWS.Keys) == 25
  {
    DefaultDayAmount(WEEKEND_RATES, Interval(20, 21));
  }

  lemma SampleDays()
    ensures DailyAmounts(DEFAULT_WINDOWS, HOURLY_PRICES, SampleLoads()).Keys == {"MO", "TU", "TH", "SA", "SU"}
  {
    assert SampleLoads().Keys == {"MO", "TU", "TH", "SA", "SU"};
    assert SampleLoads().Keys <= HOURLY_PRICES.Keys;
  }

  /** Each sample day's amount under HOURLY_PRICES. */
  lemma SampleDailyAmounts()
    ensures var daily := DailyAmounts(DEFAULT_WINDOWS, HOURLY_PRICES, SampleLoads());
      && daily.Keys == {"MO", "TU", "TH", "SA", "SU"}
      && daily["MO"] == 30 && daily["TU"] == 30 && daily["TH"] == 50 && daily["SA"] == 80 && daily["SU"] == 25
  {
    SampleDays();
    assert HOURLY_PRICES["MO"] == HOURLY_PRICES["TU"] == HOURLY_PRICES["TH"] == WEEKDAY_RATES;
    assert HOURLY_PRICES["SA"] == HOURLY_PRICES["SU"] == WEEKEND_RATES;
    MondayAmount();
    ThursdayAmount();
    SaturdayAmount();
    SundayAmount();
  }

  /** A map with five distinct keys sums to its five values. */
  lemma MapSumOfFive(m: map<string, int>, a: string, b: string, c: string, d: string, e: string)
    requires m.Keys == {a, b, c, d, e}
    requires a != b && a != c && a != d && a != e && b != c && b != d && b != e && c != d && c != e && d != e
    ensures MapSum(m) == m[a] + m[b] + m[c] + m[d] + m[e]
  {
    MapSumRemove(m, a);
    var m1 := m - {a};
    MapSumRemove(m1, b);
    var m2 := m1 - {b};
    MapSumOfThree(m2, c, d, e);
  }

  lemma SampleWeekAmount()
    ensures WeekAmount(DEFAULT_WINDOWS, HOURLY_PRICES, SampleLoads()) == 215
  {
    SampleDailyAmounts();
    MapSumOfFive(DailyAmounts(DEFAULT_WINDOWS, HOURLY_PRICES, SampleLoads()), "MO", "TU", "TH", "SA", "SU");
  }

  /** The documented example week pays 215 under the default shifts and
      rates. */
  lemma SamplePayment()
    ensures Payment(DEFAULT_WINDOWS, HOURLY_PRICES, SAMPLE) == Ok(215)
  {
    SampleShiftLoad();
    SampleWeekAmount();
  }
}
