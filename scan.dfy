/** The string scans the engine relies on: `str.split(",")`, the first match of
    `[a-zA-Z]+` (task.py:167-169) and the matches of `\d{2}:\d{2}`
    (task.py:138-141), written as scans over characters. */
module Scan {
  import opened Config

  /** `s.split(sep)`: the pieces between separators, empty pieces included. */
  function Split(s: string, sep: char): (r: seq<string>)
    ensures |r| >= 1
    ensures forall i :: 0 <= i < |r| ==> sep !in r[i]
    decreases |s|
  {
    if s == [] then [""]
    else
      var rest := Split(s[1..], sep);
      if s[0] == sep then [""] + rest else [[s[0]] + rest[0]] + rest[1..]
  }

  /** `sep.join(pieces)`, the inverse of `Split`. */
  function Join(pieces: seq<string>, sep: char): string
    requires |pieces| >= 1
    decreases |pieces|
  {
    if |pieces| == 1 then pieces[0] else pieces[0] + [sep] + Join(pieces[1..], sep)
  }

  /** Splitting loses nothing: joining the pieces gives the string back. */
  lemma {:induction false} JoinSplit(s: string, sep: char)
    ensures Join(Split(s, sep), sep) == s
    decreases |s|
  {
    if s != [] {
      JoinSplit(s[1..], sep);
      var rest := Split(s[1..], sep);
      if s[0] == sep {
        assert Split(s, sep)[1..] == rest;
      } else if |rest| == 1 {
        assert Join(Split(s, sep), sep) == [s[0]] + rest[0];
      } else {
        assert Split(s, sep)[1..] == rest[1..];
        assert Join(rest, sep) == rest[0] + [sep] + Join(rest[1..], sep);
        assert [s[0]] + rest[0] + [sep] + Join(rest[1..], sep) == [s[0]] + Join(rest, sep);
      }
    }
  }

  lemma {:induction false} SplitAfterSeparatorFree(a: string, b: string, sep: char)
    requires sep !in a
    ensures Split(a + b, sep) == [a + Split(b, sep)[0]] + Split(b, sep)[1..]
    decreases |a|
  {
    if a != [] {
      assert (a + b)[1..] == a[1..] + b;
      SplitAfterSeparatorFree(a[1..], b, sep);
      var rest := Split(a[1..] + b, sep);
      assert (a + b)[0] == a[0] != sep;
      assert Split(a + b, sep) == [[a[0]] + rest[0]] + rest[1..];
      assert [a[0]] + (a[1..] + Split(b, sep)[0]) == a + Split(b, sep)[0];
    } else {
      var r := Split(b, sep);
      assert a + b == b;
      assert a + r[0] == r[0];
      assert [r[0]] + r[1..] == r;
    }
  }

  /** Pieces free of the separator are split back out of their join. */
  lemma {:induction false} SplitJoin(pieces: seq<string>, sep: char)
    requires |pieces| >= 1
    requires forall i :: 0 <= i < |pieces| ==> sep !in pieces[i]
    ensures Split(Join(pieces, sep), sep) == pieces
    decreases |pieces|
  {
    if |pieces| == 1 {
      SplitAfterSeparatorFree(pieces[0], "", sep);
      assert pieces[0] + "" == pieces[0];
    } else {
      var tail := Join(pieces[1..], sep);
      SplitJoin(pieces[1..], sep);
      assert ([sep] + tail)[1..] == tail;
      assert Split([sep] + tail, sep) == [""] + pieces[1..];
      assert pieces[0] + [sep] + tail == pieces[0] + ([sep] + tail);
      SplitAfterSeparatorFree(pieces[0], [sep] + tail, sep);
      assert pieces[0] + "" == pieces[0];
      assert [pieces[0]] + pieces[1..] == pieces;
    }
  }

  predicate IsLetter(c: char) { 'a' <= c <= 'z' || 'A' <= c <= 'Z' }

  /** The maximal run of letters at the start of `s`. */
  function LetterPrefix(s: string): (r: string)
    ensures r <= s
    ensures forall i :: 0 <= i < |r| ==> IsLetter(r[i])
    ensures |r| < |s| ==> !IsLetter(s[|r|])
  {
    if s == [] || !IsLetter(s[0]) then [] else [s[0]] + LetterPrefix(s[1..])
  }

  /** The position of the first letter of `s`, if there is one. */
  function FirstLetterAt(s: string): (r: Option<nat>)
    ensures r.None? <==> forall j :: 0 <= j < |s| ==> !IsLetter(s[j])
    ensures r.Some? ==> r.value < |s| && IsLetter(s[r.value])
    ensures r.Some? ==> forall j :: 0 <= j < r.value ==> !IsLetter(s[j])
  {
    if s == [] then None
    else if IsLetter(s[0]) then Some(0)
    else match FirstLetterAt(s[1..])
      case Some(i) => Some(i + 1)
      case None => None
  }

  /** `re.findall("[a-zA-Z]+", s)[0]`: the first maximal run of ASCII letters,
      or nothing where `findall` finds no match (the IndexError). */
  function FirstLetterRun(s: string): (r: Option<string>)
    ensures r.None? <==> forall j :: 0 <= j < |s| ==> !IsLetter(s[j])
    ensures r.Some? ==> |r.value| >= 1 && forall i :: 0 <= i < |r.value| ==> IsLetter(r.value[i])
    ensures r.Some? ==> |r.value| <= |s|
    ensures r.Some? ==>
      var i := FirstLetterAt(s).value;
      && i + |r.value| <= |s|
      && s[i..i + |r.value|] == r.value
      && (i + |r.value| == |s| || !IsLetter(s[i + |r.value|]))
  {
    match FirstLetterAt(s)
    case Some(i) => Some(LetterPrefix(s[i..]))
    case None => None
  }

  /** A match of `\d{2}:\d{2}`. */
  predicate IsTime(t: string)
  {
    |t| == 5 && IsDigit(t[0]) && IsDigit(t[1]) && t[2] == ':' && IsDigit(t[3]) && IsDigit(t[4])
  }

  /** `re.findall(r"\d{2}:\d{2}", s)`: the matches found left to right, each
      search resuming after the previous match. */
  function TimeMatches(s: string): (r: seq<string>)
    ensures forall i :: 0 <= i < |r| ==> IsTime(r[i])
    ensures 5 * |r| <= |s|
    decreases |s|
  {
    if |s| < 5 then []
    else if IsTime(s[..5]) then [s[..5]] + TimeMatches(s[5..])
    else TimeMatches(s[1..])
  }

  /** Five characters of `s` starting at `p` form a time. */
  predicate TimeAt(s: string, p: int)
  {
    0 <= p && p + 5 <= |s| && IsTime(s[p..p + 5])
  }

  /** Dropping the first character shifts every position by one. */
  lemma TimeAtTail(s: string, q: nat)
    requires s != []
    ensures TimeAt(s[1..], q) <==> TimeAt(s, q + 1)
  {
    if 0 <= q && q + 5 <= |s| - 1 {
      assert s[1..][q..q + 5] == s[q + 1..q + 6];
    }
  }

  /** `findall` finds nothing exactly when no five consecutive characters of
      `s` form a time. */
  lemma {:induction false} NoTimeMatches(s: string)
    ensures TimeMatches(s) == [] <==> forall p :: !TimeAt(s, p)
    decreases |s|
  {
    if |s| >= 5 {
      assert s[0..5] == s[..5];
      if !IsTime(s[..5]) {
        NoTimeMatches(s[1..]);
        forall q | q >= 0 ensures TimeAt(s[1..], q) <==> TimeAt(s, q + 1) {
          TimeAtTail(s, q);
        }
        assert !TimeAt(s, 0);
        if exists p :: TimeAt(s, p) {
          var p :| TimeAt(s, p);
          assert TimeAt(s[1..], p - 1);
        }
      } else {
        assert TimeAt(s, 0);
      }
    } else {
      forall p ensures !TimeAt(s, p) {}
    }
  }

  /** The first match is the leftmost five characters that form a time, and
      the search resumes right after it. */
  lemma {:induction false} FirstTimeMatch(s: string, p: nat)
    requires TimeAt(s, p)
    requires forall q :: 0 <= q < p ==> !TimeAt(s, q)
    ensures TimeMatches(s) == [s[p..p + 5]] + TimeMatches(s[p + 5..])
    decreases p
  {
    if p == 0 {
      assert s[..5] == s[0..5];
    } else {
      assert s[0..5] == s[..5];
      assert !TimeAt(s, 0);
      var t := s[1..];
      forall q | 0 <= q < p - 1
        ensures !TimeAt(t, q)
      {
        TimeAtTail(s, q);
      }
      TimeAtTail(s, p - 1);
      assert t[p - 1..p + 4] == s[p..p + 5];
      assert t[p + 4..] == s[p + 5..];
      FirstTimeMatch(t, p - 1);
    }
  }

  /** The hour of a match, `int(t.split(":")[0])`. */
  function HourOf(t: string): (h: nat)
    requires IsTime(t)
    ensures h == 10 * (t[0] as int - '0' as int) + (t[1] as int - '0' as int) < 100
    ensures ParseHour(t) == Some(h)
  {
    assert t == t[..2] + ":" + t[3..];
    HourDropsMinutes(t[..2], t[3..]);
    assert t[..2][..1] == t[..1] && t[..1][..0] == [];
    assert DigitsValue(t[..1]) == t[0] as int - '0' as int <= 9;
    assert DigitsValue(t[..2]) == 10 * DigitsValue(t[..1]) + (t[1] as int - '0' as int);
    DigitsValue(t[..2])
  }

  lemma TimeMatchesOfTime(t: string, rest: string)
    requires IsTime(t)
    ensures TimeMatches(t + rest) == [t] + TimeMatches(rest)
  {
    assert (t + rest)[..5] == t;
    assert (t + rest)[5..] == rest;
  }

  /** "HH:MM-HH:MM" yields exactly its two times. */
  lemma {:induction false} TimeMatchesOfInterval(t1: string, t2: string)
    requires IsTime(t1) && IsTime(t2)
    ensures TimeMatches(t1 + "-" + t2) == [t1, t2]
  {
    TimeMatchesOfTime(t1, "-" + t2);
    assert t1 + "-" + t2 == t1 + ("-" + t2);
    assert ("-" + t2)[1..] == t2;
    TimeMatchesOfTime(t2, "");
    assert t2 + "" == t2;
  }
}
