/** Pricing the per-day loads and totalling the week: the arithmetic of
    `determine_amounts` (task.py:175-199) and `calcaulate_payment`
    (task.py:202-218). */
module Pricing {
  import opened Config
  import opened Scan
  import opened Allocation
  import opened Workload

  /** The lenient lookup `m.get(k, 0)`: an absent key counts as 0. */
  function Get(m: map<string, int>, k: string): (v: int)
    ensures k in m ==> v == m[k]
    ensures k !in m ==> v == 0
  {
    if k in m then m[k] else 0
  }

  /** The sum of the values of a map, in no particular order. */
  ghost function MapSum(m: map<string, int>): int
    decreases m.Keys
  {
    if m == map[] then 0
    else
      var k :| k in m;
      m[k] + MapSum(m - {k})
  }

  /** Any key may be taken out first: the sum does not depend on the order in
      which the keys are visited. */
  lemma {:induction false} MapSumRemove(m: map<string, int>, k: string)
    requires k in m
    ensures MapSum(m) == m[k] + MapSum(m - {k})
    decreases m.Keys
  {
    var j :| j in m && MapSum(m) == m[j] + MapSum(m - {j});
    if j != k {
      var rest := m - {j} - {k};
      assert m - {k} - {j} == rest;
      MapSumRemove(m - {j}, k);
      MapSumRemove(m - {k}, j);
    }
  }

  /** Scaling every value scales the sum. */
  lemma {:induction false} MapSumScale(m: map<string, int>, scaled: map<string, int>, c: int)
    requires scaled.Keys == m.Keys
    requires forall k :: k in m ==> scaled[k] == c * m[k]
    ensures MapSum(scaled) == c * MapSum(m)
    decreases m.Keys
  {
    if m != map[] {
      var k :| k in m;
      var rest, scaledRest := m - {k}, scaled - {k};
      MapSumRemove(m, k);
      MapSumRemove(scaled, k);
      assert scaledRest.Keys == rest.Keys;
      MapSumScale(rest, scaledRest, c);
      MulDistributes(c, m[k], MapSum(rest));
    }
  }

  lemma MulDistributes(c: int, a: int, b: int)
    ensures c * a + c * b == c * (a + b)
  {
  }

  /** Each configured shift's pay for one day: `rate.get(shift, 0) * hours.get(shift, 0)`. */
  function ShiftPays(rates: Rates, load: Load, shifts: set<string>): (pays: map<string, int>)
    ensures pays.Keys == shifts
  {
    map k | k in shifts :: Get(rates, k) * Get(load, k)
  }

  /** What one day earns: the sum of its shifts' pay. */
  ghost function DayAmount(rates: Rates, load: Load, shifts: set<string>): int
  {
    MapSum(ShiftPays(rates, load, shifts))
  }

  /** The amount of every day present both in the workload and in the rate
      table. */
  ghost function DailyAmounts(windows: Windows, prices: RateTable, loads: DayLoads): (amounts: map<string, int>)
    ensures amounts.Keys == loads.Keys * prices.Keys
  {
    map d | d in loads.Keys * prices.Keys :: DayAmount(prices[d], loads[d], windows.Keys)
  }

  /** A day with no configured shift earns nothing. */
  lemma DayAmountNoShifts(rates: Rates, load: Load)
    ensures DayAmount(rates, load, {}) == 0
  {
    assert ShiftPays(rates, load, {}) == map[];
  }

  /** A day's amount is any one shift's rate times hours plus the amount of
      the other shifts: the order of the shifts does not matter. */
  lemma DayAmountPeel(rates: Rates, load: Load, shifts: set<string>, k: string)
    requires k in shifts
    ensures DayAmount(rates, load, shifts)
         == Get(rates, k) * Get(load, k) + DayAmount(rates, load, shifts - {k})
  {
    MapSumRemove(ShiftPays(rates, load, shifts), k);
    assert ShiftPays(rates, load, shifts) - {k} == ShiftPays(rates, load, shifts - {k});
  }

  /** What the week earns. */
  ghost function WeekAmount(windows: Windows, prices: RateTable, loads: DayLoads): int
  {
    MapSum(DailyAmounts(windows, prices, loads))
  }

  /** A week's total is any one priced day's amount plus the total of the
      other days: the order of the days does not matter. */
  lemma WeekAmountPeel(windows: Windows, prices: RateTable, loads: DayLoads, d: string)
    requires d in loads && d in prices
    ensures WeekAmount(windows, prices, loads)
         == DayAmount(prices[d], loads[d], windows.Keys) + WeekAmount(windows, prices, loads - {d})
  {
    MapSumRemove(DailyAmounts(windows, prices, loads), d);
    assert DailyAmounts(windows, prices, loads) - {d} == DailyAmounts(windows, prices, loads - {d});
  }

  /** What `calcaulate_payment` returns for a week record: a total exactly when
      every token of the record reads, otherwise the record's failure. */
  ghost function Payment(windows: Windows, prices: RateTable, week: string): (r: Result<int>)
    ensures r.Ok? <==> forall token :: token in Split(week, ',') ==> TokenLoad(windows, token).Ok?
    ensures r.Err? ==> r == Err(ShiftLoadOf(windows, week).error)
  {
    match ShiftLoadOf(windows, week)
    case Err(e) => Err(e)
    case Ok(loads) => Ok(WeekAmount(windows, prices, loads))
  }

  /** `sum([y for (x, y) in amounts])`. */
  function SumAmounts(amounts: seq<(string, int)>): (r: int)
    ensures amounts == [] ==> r == 0
    ensures (forall i :: 0 <= i < |amounts| ==> amounts[i].1 >= 0) ==> r >= 0
    decreases |amounts|
  {
    if amounts == [] then 0 else amounts[0].1 + SumAmounts(amounts[1..])
  }

  /** Summing a list in two parts and adding the part sums gives the sum of
      the whole list. */
  lemma {:induction false} SumAmountsAppend(front: seq<(string, int)>, back: seq<(string, int)>)
    ensures SumAmounts(front + back) == SumAmounts(front) + SumAmounts(back)
    decreases |front|
  {
    if front != [] {
      assert (front + back)[1..] == front[1..] + back;
      SumAmountsAppend(front[1..], back);
    } else {
      assert front + back == back;
    }
  }

  /** The list pairs every day of `daily` exactly once with its amount. */
  ghost predicate ListsEachDayOnce(amounts: seq<(string, int)>, daily: map<string, int>)
  {
    && |amounts| == |daily|
    && (forall i :: 0 <= i < |amounts| ==> amounts[i].0 in daily && amounts[i].1 == daily[amounts[i].0])
    && (forall i, j :: 0 <= i < j < |amounts| ==> amounts[i].0 != amounts[j].0)
  }

  /** Summing the list of (day, amount) pairs gives the total whatever order
      the days were visited in. */
  lemma {:induction false} SumAmountsInAnyOrder(amounts: seq<(string, int)>, daily: map<string, int>)
    requires ListsEachDayOnce(amounts, daily)
    ensures SumAmounts(amounts) == MapSum(daily)
    decreases |amounts|
  {
    if amounts == [] {
      assert daily.Keys == {} by {
        assert |daily.Keys| == |daily| == 0;
      }
      assert daily == map[];
    } else {
      var d := amounts[0].0;
      MapSumRemove(daily, d);
      var rest := daily - {d};
      assert rest.Keys == daily.Keys - {d};
      assert |rest| == |daily| - 1 by {
        assert |rest.Keys| == |daily.Keys| - 1;
      }
      forall i | 0 <= i < |amounts| - 1
        ensures amounts[1..][i].0 in rest && amounts[1..][i].1 == rest[amounts[1..][i].0]
      {
        assert amounts[1..][i] == amounts[i + 1];
      }
      SumAmountsInAnyOrder(amounts[1..], rest);
    }
  }

  /** A shift with no rate, or no hours, that day pays nothing. */
  lemma MissingRateOrHoursPayNothing(rates: Rates, load: Load, shifts: set<string>, k: string)
    requires k in shifts && (k !in rates || k !in load)
    ensures ShiftPays(rates, load, shifts)[k] == 0
  {
  }

  /** A day without a rate row contributes nothing, whatever its hours. */
  lemma UnknownDayIgnored(windows: Windows, prices: RateTable, loads: DayLoads, d: string)
    requires d !in prices
    ensures d !in DailyAmounts(windows, prices, loads)
    ensures WeekAmount(windows, prices, loads) == WeekAmount(windows, prices, loads - {d})
  {
    assert DailyAmounts(windows, prices, loads) == DailyAmounts(windows, prices, loads - {d});
  }

  /** Pay is linear in hours: scaling every shift's hours by c scales the day's
      amount by c. */
  lemma DayAmountLinear(rates: Rates, load: Load, scaled: Load, shifts: set<string>, c: int)
    requires scaled.Keys == load.Keys
    requires forall k :: k in load ==> scaled[k] == c * load[k]
    ensures DayAmount(rates, scaled, shifts) == c * DayAmount(rates, load, shifts)
  {
    var pays := ShiftPays(rates, load, shifts);
    var scaledPays := ShiftPays(rates, scaled, shifts);
    forall k | k in pays ensures scaledPays[k] == c * pays[k] {
      calc {
        scaledPays[k];
        Get(rates, k) * Get(scaled, k);
        Get(rates, k) * (c * Get(load, k));
        { MulCommutes(Get(rates, k), c, Get(load, k)); }
        c * (Get(rates, k) * Get(load, k));
      }
    }
    MapSumScale(pays, scaledPays, c);
  }

  lemma MulCommutes(a: int, c: int, b: int)
    ensures a * (c * b) == c * (a * b)
  {
  }

  /** A map with three distinct keys sums to its three values. */
  lemma MapSumOfThree(m: map<string, int>, a: string, b: string, c: string)
    requires m.Keys == {a, b, c} && a != b && b != c && a != c
    ensures MapSum(m) == m[a] + m[b] + m[c]
  {
    MapSumRemove(m, a);
    var m1 := m - {a};
    MapSumRemove(m1, b);
    var m2 := m1 - {b};
    MapSumRemove(m2, c);
    assert m2 - {c} == map[];
  }

  /** Under the default windows a day earns each shift's rate times the hours
      the interval spends in it. */
  lemma DefaultDayAmount(rates: Rates, iv: Interval)
    ensures DayAmount(rates, DayLoad(DEFAULT_WINDOWS, iv), DEFAULT_WINDOWS.Keys)
         == Get(rates, "night_shift") * Overlap(iv.hourIn, EffectiveEnd(iv), Window(0, 9))
          + Get(rates, "day_shift") * Overlap(iv.hourIn, EffectiveEnd(iv), Window(9, 18))
          + Get(rates, "evening_shift") * Overlap(iv.hourIn, EffectiveEnd(iv), Window(18, 24))
  {
    DefaultDayLoad(iv);
    var pays := ShiftPays(rates, DayLoad(DEFAULT_WINDOWS, iv), DEFAULT_WINDOWS.Keys);
    assert DEFAULT_WINDOWS.Keys == {"night_shift", "day_shift", "evening_shift"};
    MapSumOfThree(pays, "night_shift", "day_shift", "evening_shift");
  }
}
