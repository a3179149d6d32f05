/** The week record split into per-day loads: the logic of
    `determine_shift_load` (task.py:151-173) as functions of the tokens. */
module Workload {
  import opened Config
  import opened Scan
  import opened Allocation

  /** Day code to the load recorded for that day. */
  type DayLoads = map<string, Load>

  /** One comma-separated token: the first run of letters is the day code, the
      text after as many characters as the code has is the work part. */
  function TokenLoad(windows: Windows, token: string): (r: Result<(string, Load)>)
    ensures r == Err(NoDayCode) <==> FirstLetterRun(token).None?
    ensures r.Ok? ==> FirstLetterRun(token) == Some(r.value.0) && r.value.1.Keys == windows.Keys
  {
    match FirstLetterRun(token)
    case None => Err(NoDayCode)
    case Some(day) =>
      match LoadForDay(windows, token[|day|..])
      case Err(e) => Err(e)
      case Ok(load) => Ok((day, load))
  }

  /** A token fails with no day code when it has no letter, and otherwise
      succeeds exactly when its work part holds two times; a success carries the
      day code and an entry for every shift. */
  lemma TokenLoadMeaning(windows: Windows, token: string)
    ensures FirstLetterRun(token).None? ==> TokenLoad(windows, token) == Err(NoDayCode)
    ensures FirstLetterRun(token).Some? ==>
      var work := token[|FirstLetterRun(token).value|..];
      (TokenLoad(windows, token).Ok? <==> |TimeMatches(work)| == 2) &&
      (TokenLoad(windows, token).Err? ==> TokenLoad(windows, token).error == TimeCount(|TimeMatches(work)|))
    ensures TokenLoad(windows, token).Ok? ==>
      FirstLetterRun(token) == Some(TokenLoad(windows, token).value.0) &&
      TokenLoad(windows, token).value.1.Keys == windows.Keys
  {
  }

  /** The loop of `determine_shift_load` over the tokens' outcomes, left to
      right: each load is stored under its day code, replacing any earlier one,
      and the first failure stops the loop. */
  function Collect(entries: seq<Result<(string, Load)>>): (r: Result<DayLoads>)
    ensures r.Ok? <==> forall i :: 0 <= i < |entries| ==> entries[i].Ok?
    decreases |entries|
  {
    if entries == [] then Ok(map[])
    else
      var previous := entries[..|entries| - 1];
      assert forall i :: 0 <= i < |previous| ==> previous[i] == entries[i];
      match Collect(previous)
      case Err(e) => Err(e)
      case Ok(loads) =>
        match entries[|entries| - 1]
        case Err(e) => Err(e)
        case Ok(entry) => Ok(loads[entry.0 := entry.1])
  }

  /** The outcome of every token, in order. */
  function Entries(windows: Windows, tokens: seq<string>): (es: seq<Result<(string, Load)>>)
    ensures |es| == |tokens|
    ensures forall i :: 0 <= i < |tokens| ==> es[i] == TokenLoad(windows, tokens[i])
  {
    seq(|tokens|, i requires 0 <= i < |tokens| => TokenLoad(windows, tokens[i]))
  }

  /** `determine_shift_load` on the tokens of a record. */
  function WeekLoad(windows: Windows, tokens: seq<string>): (r: Result<DayLoads>)
    ensures r.Ok? <==> forall i :: 0 <= i < |tokens| ==> TokenLoad(windows, tokens[i]).Ok?
  {
    Collect(Entries(windows, tokens))
  }

  /** What `determine_shift_load` returns for a week record. */
  function ShiftLoadOf(windows: Windows, week: string): (r: Result<DayLoads>)
    ensures r.Ok? <==> forall token :: token in Split(week, ',') ==> TokenLoad(windows, token).Ok?
  {
    WeekLoad(windows, Split(week, ','))
  }

  /** A failure is the failure of the first entry that fails. */
  lemma {:induction false} FirstFailureReported(entries: seq<Result<(string, Load)>>, i: nat)
    requires i < |entries|
    requires forall j :: 0 <= j < i ==> entries[j].Ok?
    requires entries[i].Err?
    ensures Collect(entries) == Err(entries[i].error)
    decreases |entries|
  {
    var previous := entries[..|entries| - 1];
    assert forall j :: 0 <= j < |previous| ==> previous[j] == entries[j];
    if i < |entries| - 1 {
      FirstFailureReported(previous, i);
    } else {
      assert Collect(previous).Ok?;
    }
  }

  /** The days of the result are exactly the day codes of the entries. */
  lemma {:induction false} CollectDays(entries: seq<Result<(string, Load)>>, d: string)
    requires Collect(entries).Ok?
    ensures d in Collect(entries).value
        <==> exists i :: 0 <= i < |entries| && entries[i].value.0 == d
    decreases |entries|
  {
    if entries != [] {
      var previous := entries[..|entries| - 1];
      assert forall j :: 0 <= j < |previous| ==> previous[j] == entries[j];
      CollectDays(previous, d);
      if exists i :: 0 <= i < |entries| && entries[i].value.0 == d {
        var i :| 0 <= i < |entries| && entries[i].value.0 == d;
        if i < |previous| {
          assert previous[i].value.0 == d;
        }
      }
    }
  }

  /** A repeated day code keeps only the load of its last entry. */
  lemma {:induction false} LastOccurrenceWins(entries: seq<Result<(string, Load)>>, i: nat)
    requires Collect(entries).Ok?
    requires i < |entries|
    requires forall j :: i < j < |entries| ==> entries[j].value.0 != entries[i].value.0
    ensures entries[i].value.0 in Collect(entries).value
    ensures Collect(entries).value[entries[i].value.0] == entries[i].value.1
    decreases |entries|
  {
    var previous := entries[..|entries| - 1];
    assert forall j :: 0 <= j < |previous| ==> previous[j] == entries[j];
    if i < |previous| {
      LastOccurrenceWins(previous, i);
    }
  }

  /** Loads that all cover the same shifts are stored as they are. */
  lemma {:induction false} CollectKeepsShifts(entries: seq<Result<(string, Load)>>, shifts: set<string>)
    requires forall i :: 0 <= i < |entries| && entries[i].Ok? ==> entries[i].value.1.Keys == shifts
    ensures Collect(entries).Ok? ==>
      forall d :: d in Collect(entries).value ==> Collect(entries).value[d].Keys == shifts
    decreases |entries|
  {
    if entries != [] {
      var previous := entries[..|entries| - 1];
      assert forall j :: 0 <= j < |previous| ==> previous[j] == entries[j];
      CollectKeepsShifts(previous, shifts);
    }
  }

  /** Every stored day load has an entry for every configured shift. */
  lemma WeekLoadShifts(windows: Windows, tokens: seq<string>)
    ensures WeekLoad(windows, tokens).Ok? ==>
      forall d :: d in WeekLoad(windows, tokens).value ==> WeekLoad(windows, tokens).value[d].Keys == windows.Keys
  {
    forall i | 0 <= i < |tokens| {
      TokenLoadMeaning(windows, tokens[i]);
    }
    CollectKeepsShifts(Entries(windows, tokens), windows.Keys);
  }

  lemma {:induction false} LetterPrefixOfCode(code: string, rest: string)
    requires forall i :: 0 <= i < |code| ==> IsLetter(code[i])
    requires rest == [] || !IsLetter(rest[0])
    ensures LetterPrefix(code + rest) == code
    decreases |code|
  {
    if code == [] {
      assert code + rest == rest;
    } else {
      assert (code + rest)[1..] == code[1..] + rest;
      LetterPrefixOfCode(code[1..], rest);
    }
  }

  /** A well-formed token "DDHH:MM-HH:MM" yields its day code and the load of
      its interval. */
  lemma RecordToken(windows: Windows, token: string, code: string, t1: string, t2: string, h1: int, h2: int)
    requires token == code + t1 + "-" + t2
    requires |code| >= 1 && forall i :: 0 <= i < |code| ==> IsLetter(code[i])
    requires IsTime(t1) && IsTime(t2) && HourOf(t1) == h1 && HourOf(t2) == h2
    ensures TokenLoad(windows, token) == Ok((code, DayLoad(windows, Interval(h1, h2))))
  {
    var work := t1 + "-" + t2;
    assert token == code + work;
    assert IsLetter(token[0]);
    assert FirstLetterAt(token) == Some(0);
    LetterPrefixOfCode(code, work);
    assert token[0..] == token;
    assert token[|code|..] == work;
    TimeMatchesOfInterval(t1, t2);
  }

  /** An empty record is a failure: its only token has no day code. */
  lemma EmptyRecordFails(windows: Windows)
    ensures ShiftLoadOf(windows, "") == Err(NoDayCode)
  {
    assert Split("", ',') == [""];
    FirstFailureReported(Entries(windows, [""]), 0);
  }

  /** One more successful entry updates the day it names. */
  lemma CollectStep(entries: seq<Result<(string, Load)>>, day: string, load: Load)
    requires Collect(entries).Ok?
    ensures Collect(entries + [Ok((day, load))]) == Ok(Collect(entries).value[day := load])
  {
    assert (entries + [Ok((day, load))])[..|entries|] == entries;
  }

  const FIRST_MONDAY := "MO10:00-12:00"
  const SECOND_MONDAY := "MO01:00-03:00"
  /** A record naming Monday twice. */
  const REPEATED_DAY := FIRST_MONDAY + "," + SECOND_MONDAY

  lemma RepeatedDayTokens()
    ensures Split(REPEATED_DAY, ',') == [FIRST_MONDAY, SECOND_MONDAY]
  {
    var tokens := [FIRST_MONDAY, SECOND_MONDAY];
    assert Join(tokens[1..], ',') == SECOND_MONDAY;
    assert Join(tokens, ',') == REPEATED_DAY;
    SplitJoin(tokens, ',');
  }

  lemma FirstMondayToken()
    ensures TokenLoad(DEFAULT_WINDOWS, FIRST_MONDAY) == Ok(("MO", DayLoad(DEFAULT_WINDOWS, Interval(10, 12))))
  {
    RecordToken(DEFAULT_WINDOWS, FIRST_MONDAY, "MO", "10:00", "12:00", 10, 12);
  }

  lemma SecondMondayToken()
    ensures TokenLoad(DEFAULT_WINDOWS, SECOND_MONDAY) == Ok(("MO", DayLoad(DEFAULT_WINDOWS, Interval(1, 3))))
  {
    RecordToken(DEFAULT_WINDOWS, SECOND_MONDAY, "MO", "01:00", "03:00", 1, 3);
  }

  lemma RepeatedDayEntries()
    ensures Entries(DEFAULT_WINDOWS, Split(REPEATED_DAY, ','))
         == [Ok(("MO", DayLoad(DEFAULT_WINDOWS, Interval(10, 12)))),
             Ok(("MO", DayLoad(DEFAULT_WINDOWS, Interval(1, 3))))]
  {
    RepeatedDayTokens();
    FirstMondayToken();
    SecondMondayToken();
    EntriesOfTwo(DEFAULT_WINDOWS, [FIRST_MONDAY, SECOND_MONDAY]);
  }

  /** The outcomes of two tokens, in order. */
  lemma EntriesOfTwo(windows: Windows, tokens: seq<string>)
    requires |tokens| == 2
    ensures Entries(windows, tokens) == [TokenLoad(windows, tokens[0]), TokenLoad(windows, tokens[1])]
  {
  }

  /** Two successful entries for the same day keep the second load. */
  lemma CollectSameDayTwice(day: string, first: Load, second: Load)
    ensures Collect([Ok((day, first)), Ok((day, second))]) == Ok(map[day := second])
  {
    CollectStep([], day, first);
    assert [] + [Ok((day, first))] == [Ok((day, first))];
    CollectStep([Ok((day, first))], day, second);
    assert [Ok((day, first))] + [Ok((day, second))] == [Ok((day, first)), Ok((day, second))];
    assert map[day := first][day := second] == map[day := second];
  }

  /** "MO10:00-12:00,MO01:00-03:00": the second Monday replaces the first. */
  lemma RepeatedDayExample()
    ensures ShiftLoadOf(DEFAULT_WINDOWS, REPEATED_DAY)
         == Ok(map["MO" := map["night_shift" := 2, "day_shift" := 0, "evening_shift" := 0]])
  {
    RepeatedDayEntries();
    CollectSameDayTwice("MO", DayLoad(DEFAULT_WINDOWS, Interval(10, 12)), DayLoad(DEFAULT_WINDOWS, Interval(1, 3)));
    DefaultDayLoad(Interval(1, 3));
  }
}
