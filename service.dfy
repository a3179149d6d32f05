/** The payroll engine as objects: `Payroll_I` (task.py:96-218), whose
    methods read and replace its shift windows and rate table, and the
    `Payroll` holder of the one shared engine (task.py:77-93). Every method is
    proved against the functions of Config, Allocation, Workload and Pricing. */
module Service {
  import opened Config
  import opened Scan
  import opened Allocation
  import opened Workload
  import opened Pricing

  /** The outcome of the tokens before `i` followed by that of token `i`. */
  lemma EntriesGrow(windows: Windows, tokens: seq<string>, i: nat)
    requires i < |tokens|
    ensures Entries(windows, tokens[..i + 1]) == Entries(windows, tokens[..i]) + [TokenLoad(windows, tokens[i])]
  {
  }

  /** A failing token after successful ones is the failure of the week. */
  lemma FailureAfterSuccesses(windows: Windows, tokens: seq<string>, i: nat)
    requires i < |tokens|
    requires Collect(Entries(windows, tokens[..i])).Ok?
    requires TokenLoad(windows, tokens[i]).Err?
    ensures WeekLoad(windows, tokens) == Err(TokenLoad(windows, tokens[i]).error)
  {
    var prefix := Entries(windows, tokens[..i]);
    forall j | 0 <= j < i ensures Entries(windows, tokens)[j].Ok? {
      assert prefix[j].Ok?;
    }
    FirstFailureReported(Entries(windows, tokens), i);
  }

  /** The engine: shift windows in whole hours and the per-day rate table. */
  class PayrollI {
    var shifts: Windows
    var prices: RateTable

    /** `Payroll_I(shifts, hourly_prices)` for shift definitions that parse;
        the rate table is always HOURLY_PRICES, whatever `hourlyPrices` is. */
    constructor (rawShifts: map<string, seq<string>>, hourlyPrices: RateTable)
      requires NormalizeShifts(rawShifts).Some?
      ensures prices == HOURLY_PRICES
      ensures shifts == NormalizeShifts(rawShifts).value
    {
      prices := HOURLY_PRICES;
      shifts := map[];
      new;
      var ok := UpdateShifts(rawShifts);
    }

    /** `update_shifts`: every shift's bounds read as whole hours, an end of 0
        read as 24; the windows are replaced only when every shift parses. */
    method UpdateShifts(raw: map<string, seq<string>>) returns (ok: bool)
      modifies this`shifts
      ensures ok <==> NormalizeShifts(raw).Some?
      ensures ok ==> shifts == NormalizeShifts(raw).value
      ensures !ok ==> shifts == old(shifts)
    {
      var result: Windows := map[];
      var pending := raw.Keys;
      while pending != {}
        invariant pending <= raw.Keys
        invariant result.Keys == raw.Keys - pending
        invariant forall k :: k in result ==> ParseWindow(raw[k]) == Some(result[k])
        decreases pending
      {
        var k :| k in pending;
        var bounds := raw[k];
        if |bounds| != 2 {
          return false;
        }
        var hourIn := ParseHour(bounds[0]);
        var hourOut := ParseHour(bounds[1]);
        if hourIn.None? || hourOut.None? {
          return false;
        }
        var end := hourOut.value;
        if end == 0 {
          end := 24;
        }
        assert ParseWindow(bounds) == Some(Window(hourIn.value, end));
        result := result[k := Window(hourIn.value, end)];
        pending := pending - {k};
      }
      assert NormalizeShifts(raw).Some?;
      assert result == NormalizeShifts(raw).value;
      shifts := result;
      return true;
    }

    /** `determine_day_load`: the hours of one "HH:MM-HH:MM" interval in each
        shift. */
    method DetermineDayLoad(day: string) returns (r: Result<Load>)
      ensures r == LoadForDay(shifts, day)
    {
      var times := TimeMatches(day);
      if |times| != 2 {
        return Err(TimeCount(|times|));
      }
      var hourIn := HourOf(times[0]);
      var hourOut := HourOf(times[1]);
      if hourIn > hourOut {
        hourOut := 24;
      }
      var result: Load := map[];
      var pending := shifts.Keys;
      while pending != {}
        invariant pending <= shifts.Keys
        invariant result.Keys == shifts.Keys - pending
        invariant forall k :: k in result ==> result[k] == Overlap(hourIn, hourOut, shifts[k])
        decreases pending
      {
        var k :| k in pending;
        var w := shifts[k];
        var hours := Min(hourOut, w.end) - Max(hourIn, w.start);
        result := result[k := Max(hours, 0)];
        pending := pending - {k};
      }
      ghost var iv := Interval(HourOf(times[0]), HourOf(times[1]));
      assert hourOut == EffectiveEnd(iv);
      assert result == DayLoad(shifts, iv);
      return Ok(result);
    }

    /** `determine_shift_load`: the load of every day of a week record. */
    method DetermineShiftLoad(week: string) returns (r: Result<DayLoads>)
      ensures r == ShiftLoadOf(shifts, week)
    {
      var tokens := Split(week, ',');
      var result: DayLoads := map[];
      var i := 0;
      while i < |tokens|
        invariant 0 <= i <= |tokens|
        invariant Collect(Entries(shifts, tokens[..i])) == Ok(result)
      {
        var token := tokens[i];
        EntriesGrow(shifts, tokens, i);
        var code := FirstLetterRun(token);
        if code.None? {
          FailureAfterSuccesses(shifts, tokens, i);
          return Err(NoDayCode);
        }
        var d := code.value;
        var work := token[|d|..];
        var worked := DetermineDayLoad(work);
        if worked.Err? {
          FailureAfterSuccesses(shifts, tokens, i);
          return Err(worked.error);
        }
        CollectStep(Entries(shifts, tokens[..i]), d, worked.value);
        result := result[d := worked.value];
        i := i + 1;
      }
      assert tokens[..i] == tokens;
      return Ok(result);
    }

    /** `determine_amounts`: one (day, amount) pair for every day that is both
        worked and priced, in no particular order. */
    method DetermineAmounts(workload: DayLoads) returns (amounts: seq<(string, int)>)
      ensures ListsEachDayOnce(amounts, DailyAmounts(shifts, prices, workload))
    {
      var days := workload.Keys * prices.Keys;
      ghost var daily := DailyAmounts(shifts, prices, workload);
      amounts := [];
      var pending := days;
      while pending != {}
        invariant pending <= days
        invariant |amounts| + |pending| == |days|
        invariant forall i :: 0 <= i < |amounts| ==>
          amounts[i].0 in days - pending && amounts[i].1 == daily[amounts[i].0]
        invariant forall i, j :: 0 <= i < j < |amounts| ==> amounts[i].0 != amounts[j].0
        decreases pending
      {
        var dk :| dk in pending;
        var dailyPayment := DayPayment(prices[dk], workload[dk]);
        amounts := amounts + [(dk, dailyPayment)];
        pending := pending - {dk};
      }
      assert |daily| == |daily.Keys| == |days|;
    }

    /** The inner loop of `determine_amounts`: one day's rate times hours,
        summed over the configured shifts, a missing rate or hour counting 0. */
    method DayPayment(rates: Rates, work: Load) returns (payment: int)
      ensures payment == DayAmount(rates, work, shifts.Keys)
    {
      payment := 0;
      var shiftsLeft := shifts.Keys;
      while shiftsLeft != {}
        invariant shiftsLeft <= shifts.Keys
        invariant payment + DayAmount(rates, work, shiftsLeft) == DayAmount(rates, work, shifts.Keys)
        decreases shiftsLeft
      {
        var sk :| sk in shiftsLeft;
        DayAmountPeel(rates, work, shiftsLeft, sk);
        payment := payment + Get(rates, sk) * Get(work, sk);
        shiftsLeft := shiftsLeft - {sk};
      }
      DayAmountNoShifts(rates, work);
    }

    /** `calcaulate_payment`: the week record's total pay. */
    method CalculatePayment(week: string) returns (r: Result<int>)
      ensures r == Payment(shifts, prices, week)
    {
      var workload := DetermineShiftLoad(week);
      if workload.Err? {
        return Err(workload.error);
      }
      var amounts := DetermineAmounts(workload.value);
      SumAmountsInAnyOrder(amounts, DailyAmounts(shifts, prices, workload.value));
      return Ok(SumAmounts(amounts));
    }
  }

  /** `Payroll_I(shifts, hourly_prices)` including its failure: construction
      stops when a shift's bounds do not parse. */
  method NewPayrollI(rawShifts: map<string, seq<string>>, hourlyPrices: RateTable) returns (r: Result<PayrollI>)
    ensures r.Err? <==> NormalizeShifts(rawShifts).None?
    ensures r.Err? ==> r.error == BadShift
    ensures r.Ok? ==>
      fresh(r.value) && r.value.prices == HOURLY_PRICES && r.value.shifts == NormalizeShifts(rawShifts).value
  {
    if NormalizeShifts(rawShifts).None? {
      return Err(BadShift);
    }
    var engine := new PayrollI(rawShifts, hourlyPrices);
    return Ok(engine);
  }

  /** The holder of the one shared engine (`Payroll._instance`). */
  class Payroll {
    var instance: PayrollI?

    constructor ()
      ensures instance == null
    {
      instance := null;
    }

    /** `Payroll.instance`: the first successful call creates the engine and
        every later call returns that same engine, ignoring its arguments. */
    method Instance(rawShifts: map<string, seq<string>>, hourlyPrices: RateTable) returns (r: Result<PayrollI>)
      modifies this
      ensures old(instance) != null ==> r.Ok? && r.value == old(instance) && instance == old(instance)
      ensures old(instance) == null && NormalizeShifts(rawShifts).None? ==>
        r == Err(BadShift) && instance == null
      ensures old(instance) == null && NormalizeShifts(rawShifts).Some? ==>
        && r.Ok? && fresh(r.value) && instance == r.value
        && r.value.prices == HOURLY_PRICES && r.value.shifts == NormalizeShifts(rawShifts).value
    {
      if instance != null {
        return Ok(instance);
      }
      r := NewPayrollI(rawShifts, hourlyPrices);
      if r.Ok? {
        instance := r.value;
      }
    }
  }
}
