// Date suggestions for a chat-list search query: a few words ("today",
// "yesterday", weekday and month names), a four-digit year, or anything
// the platform date detector recognises become the ends of days, months or
// years to search up to.

module DateSuggestion {
  import opened Common

  /** A point in time, in whole seconds since 1970. */
  type Date = int

  /** 13 August 2013, the first day dates are suggested for. */
  const ReleaseDate: Date := 1376438400

  /** Seven days of 24 hours. */
  const WeekSeconds: int := 604800

  /** How many weeks back a matching weekday is offered. */
  const WeeksShown: nat := 5

  /** How many years (the current one and those before) a matching month is offered for. */
  const MonthYearsShown: nat := 8

  /** How many years back a detected date is offered. */
  const YearsShown: nat := 5

  /** The calendar services the suggestions use, taken as given. */
  datatype Calendar = Calendar(
    currentYear: Option<int>,             // the year of "now", if the calendar has one
    startOfDay: Date -> Date,
    dayBefore: Date -> Date,              // one calendar day earlier
    endOfDay: Date -> Date,               // 23:59:59 on the same day
    endOfMonth: (int, int) -> Date,       // 23:59:59 on the last day of (month, year)
    addYears: (int, Date) -> Option<Date>,
    sameYear: (Date, Date) -> bool,
    sameWeek: (Date, Date) -> bool,
    firstWeekday: int,                    // the weekday number weeks start on (1 is Sunday)
    lastWeekday: (int, Date) -> Option<Date>) // the latest date before `now` with the given weekday number and time of day

  /** A localized name: its key in the table, the full and the short form. */
  datatype NamePair = NamePair(index: int, full: string, short: string)

  /** Localized words and the locale's text services, taken as given. The
    * name tables are listed in the order the dictionaries are iterated. */
  datatype Locale = Locale(
    today: string,
    yesterday: string,
    weekDays: seq<NamePair>,
    months: seq<NamePair>,
    dateSeparator: string,
    fold: string -> string,        // diacritic folding, trimming and lower-casing of the query
    lower: string -> string,       // lower-casing of a name
    detect: string -> Option<Date>) // the first date the platform detector finds

  /** A suggested upper bound for the search, with the title to show. */
  datatype Suggestion = Suggestion(date: Date, title: Option<string>)

  // ---------------------------------------------------------------------
  // Text helpers
  // ---------------------------------------------------------------------

  predicate IsPrefix(prefix: string, s: string)
  {
    |prefix| <= |s| && s[..|prefix|] == prefix
  }

  predicate IsDigit(c: char)
  {
    '0' <= c <= '9'
  }

  predicate HasDigit(s: string)
  {
    exists i :: 0 <= i < |s| && IsDigit(s[i])
  }

  predicate AllDigits(s: string)
  {
    forall i :: 0 <= i < |s| ==> IsDigit(s[i])
  }

  function DigitValue(c: char): nat
    requires IsDigit(c)
  {
    (c as int) - ('0' as int)
  }

  function DigitChar(d: nat): (c: char)
    requires d < 10
    ensures IsDigit(c) && DigitValue(c) == d
  {
    (('0' as int) + d) as char
  }

  /** The value of a string of decimal digits, read left to right. */
  function DigitsValue(s: string): nat
    requires AllDigits(s)
  {
    if s == [] then 0 else DigitsValue(s[..|s| - 1]) * 10 + DigitValue(s[|s| - 1])
  }

  /** `Int(string)`: an optional sign followed by at least one decimal digit.
    * Only four-character strings are parsed, so overflow cannot arise. */
  function ParseInt(s: string): Option<int>
  {
    if |s| > 0 && (s[0] == '+' || s[0] == '-') then
      if |s| > 1 && AllDigits(s[1..]) then
        Some(if s[0] == '-' then -(DigitsValue(s[1..]) as int) else DigitsValue(s[1..]))
      else None
    else if |s| > 0 && AllDigits(s) then Some(DigitsValue(s))
    else None
  }

  /** Decimal digits of a natural number, without leading zeros. */
  function NatString(n: nat): (s: string)
    ensures |s| > 0 && AllDigits(s)
  {
    if n < 10 then [DigitChar(n)] else NatString(n / 10) + [DigitChar(n % 10)]
  }

  /** `"\(value)"` for an integer. */
  function DecimalString(v: int): string
  {
    if v < 0 then "-" + NatString(-v) else NatString(v)
  }

  lemma {:induction false} NatStringValue(n: nat)
    ensures DigitsValue(NatString(n)) == n
    decreases n
  {
    var s := NatString(n);
    if n >= 10 {
      NatStringValue(n / 10);
      assert s[..|s| - 1] == NatString(n / 10);
    }
  }

  /** Parsing an integer's decimal rendering gives the integer back. */
  lemma DecimalStringRoundTrip(v: int)
    ensures ParseInt(DecimalString(v)) == Some(v)
  {
    if v < 0 {
      NatStringValue(-v);
      assert DecimalString(v)[1..] == NatString(-v);
    } else {
      NatStringValue(v);
    }
  }

  lemma {:induction false} DigitsValueLowerBound(s: string)
    requires AllDigits(s) && |s| > 0 && s[0] != '0'
    ensures DigitsValue(s) >= 1
    ensures |s| >= 2 ==> DigitsValue(s) >= 10
    decreases |s|
  {
    if |s| >= 2 {
      DigitsValueLowerBound(s[..|s| - 1]);
    }
  }

  /** Digits without a leading zero are their own rendering. */
  lemma {:induction false} NatStringOfDigits(s: string)
    requires AllDigits(s) && |s| > 0 && s[0] != '0'
    ensures NatString(DigitsValue(s)) == s
    decreases |s|
  {
    var v := DigitsValue(s);
    DigitsValueLowerBound(s);
    if |s| >= 2 {
      var init := s[..|s| - 1];
      NatStringOfDigits(init);
      assert v / 10 == DigitsValue(init) && v % 10 == DigitValue(s[|s| - 1]);
      assert DigitChar(v % 10) == s[|s| - 1];
      assert s == init + [s[|s| - 1]];
    } else {
      assert DigitChar(v) == s[0];
    }
  }

  /** The number of pieces `components(separatedBy:)` cuts a string into:
    * one more than the non-overlapping occurrences of the separator, found
    * left to right; an empty separator does not cut. A string without the
    * separator is one piece, and a one-character separator cuts once per
    * occurrence of its character. */
  function PartsCount(s: string, sep: string): (n: nat)
    ensures n >= 1
    ensures n <= |s| + 1
    ensures n == 1 <==> sep == [] || !Contains(s, sep)
    ensures |sep| == 1 ==> n == multiset(s)[sep[0]] + 1
  {
    OccurrencesZeroIff(s, sep);
    if |sep| == 1 then
      OccurrencesOfChar(s, sep[0]);
      assert sep == [sep[0]];
      1 + Occurrences(s, sep)
    else
      1 + Occurrences(s, sep)
  }

  /** Whether `sep` occurs in `s` starting at position `i`. */
  predicate OccursAt(s: string, sep: string, i: int)
  {
    0 <= i && i + |sep| <= |s| && s[i..i + |sep|] == sep
  }

  /** Whether `sep` occurs somewhere in `s`. */
  predicate Contains(s: string, sep: string)
  {
    exists i | 0 <= i <= |s| :: OccursAt(s, sep, i)
  }

  function Occurrences(s: string, sep: string): (n: nat)
    ensures n <= |s|
    decreases |s|
  {
    if sep == [] || |s| < |sep| then 0
    else if s[..|sep|] == sep then 1 + Occurrences(s[|sep|..], sep)
    else Occurrences(s[1..], sep)
  }

  /** No occurrence is counted exactly when the separator is empty or absent. */
  lemma {:induction false} OccurrencesZeroIff(s: string, sep: string)
    ensures Occurrences(s, sep) == 0 <==> sep == [] || !Contains(s, sep)
    decreases |s|
  {
    if sep == [] || |s| < |sep| {
    } else if s[..|sep|] == sep {
      assert OccursAt(s, sep, 0);
    } else {
      OccurrencesZeroIff(s[1..], sep);
      if Contains(s, sep) {
        var i :| 0 <= i <= |s| && OccursAt(s, sep, i);
        assert i != 0;
        TailWindow(s, i - 1, |sep|);
        assert OccursAt(s[1..], sep, i - 1);
      }
      if Contains(s[1..], sep) {
        var j :| 0 <= j <= |s[1..]| && OccursAt(s[1..], sep, j);
        TailWindow(s, j, |sep|);
        assert OccursAt(s, sep, j + 1);
      }
    }
  }

  /** A window of the string's tail is the window one further along in the string. */
  lemma TailWindow(s: string, j: nat, len: nat)
    requires 1 + j + len <= |s|
    ensures s[1..][j..j + len] == s[j + 1..j + 1 + len]
  {
  }

  /** A one-character separator is counted once per occurrence of its character. */
  lemma {:induction false} OccurrencesOfChar(s: string, c: char)
    ensures Occurrences(s, [c]) == multiset(s)[c]
    decreases |s|
  {
    if s != [] {
      OccurrencesOfChar(s[1..], c);
      assert s == [s[0]] + s[1..];
      assert multiset(s) == multiset{s[0]} + multiset(s[1..]);
      if s[0] == c {
        assert s[..1] == [c];
      } else {
        assert s[..1] != [c] by {
          assert s[..1][0] == s[0];
        }
      }
    }
  }

  /** A query matches a name when it is the short name, or is at least as
    * long as the short name and begins the full name. */
  predicate NameMatches(query: string, full: string, short: string)
  {
    query == short || (|query| >= |short| && IsPrefix(query, full))
  }

  lemma NameMatchesFacts(query: string, full: string, short: string)
    ensures |query| < |short| ==> !NameMatches(query, full, short)
    ensures NameMatches(query, full, short) && query != short ==> IsPrefix(query, full)
    ensures |query| >= |short| && IsPrefix(query, full) ==> NameMatches(query, full, short)
    ensures NameMatches(short, full, short)
  {
  }

  // ---------------------------------------------------------------------
  // The suggestions, section by section
  // ---------------------------------------------------------------------

  /** "Today" and "yesterday", each when its lower-cased name begins with
    * the query. */
  function DayWordPart(s: string, locale: Locale, cal: Calendar, now: Date): seq<Suggestion>
  {
    var midnight := cal.startOfDay(now);
    (if IsPrefix(s, locale.lower(locale.today))
     then [Suggestion(cal.endOfDay(midnight), Some(locale.today))] else [])
    + (if IsPrefix(s, locale.lower(locale.yesterday))
       then [Suggestion(cal.endOfDay(cal.dayBefore(midnight)), Some(locale.yesterday))] else [])
  }

  /** The first `k` of the five weeks counted back from `upper`; a date in
    * the current week carries the weekday's name. */
  function WeekRun(upper: Date, now: Date, title: string, cal: Calendar, k: nat): seq<Suggestion>
  {
    if k == 0 then []
    else
      var date := upper - WeekSeconds * (k - 1);
      WeekRun(upper, now, title, cal, k - 1)
        + [Suggestion(date, if cal.sameWeek(date, now) then Some(title) else None)]
  }

  function WeekdayEntry(s: string, p: NamePair, locale: Locale, cal: Calendar, now: Date): seq<Suggestion>
  {
    if !NameMatches(s, locale.lower(p.full), locale.lower(p.short)) then []
    else match cal.lastWeekday(p.index + cal.firstWeekday, now)
      case None => []
      case Some(d) => WeekRun(cal.endOfDay(d), now, p.full, cal, WeeksShown)
  }

  function WeekdayPart(s: string, ps: seq<NamePair>, locale: Locale, cal: Calendar, now: Date): seq<Suggestion>
  {
    if ps == [] then []
    else WeekdayPart(s, ps[..|ps| - 1], locale, cal, now) + WeekdayEntry(s, ps[|ps| - 1], locale, cal, now)
  }

  /** A date is offered when it is not in the future and after the release. */
  predicate InWindow(date: Date, now: Date)
  {
    date <= now && date > ReleaseDate
  }

  /** Of the years `year`, `year - 1`, ... (`k` of them), those whose month
    * ends inside the window, newest first. */
  function MonthYears(cal: Calendar, month: int, year: int, now: Date, k: nat): seq<int>
  {
    if k == 0 then []
    else
      var y := year - (k - 1);
      MonthYears(cal, month, year, now, k - 1) + (if InWindow(cal.endOfMonth(month, y), now) then [y] else [])
  }

  function MonthEntries(cal: Calendar, month: int, ys: seq<int>): seq<Suggestion>
  {
    seq(|ys|, i requires 0 <= i < |ys| => Suggestion(cal.endOfMonth(month, ys[i]), None))
  }

  function MonthEntry(s: string, p: NamePair, locale: Locale, cal: Calendar, year: int, now: Date): seq<Suggestion>
  {
    if !NameMatches(s, locale.lower(p.full), locale.lower(p.short)) then []
    else MonthEntries(cal, p.index, MonthYears(cal, p.index, year, now, MonthYearsShown))
  }

  function MonthPart(s: string, ps: seq<NamePair>, locale: Locale, cal: Calendar, year: int, now: Date): seq<Suggestion>
  {
    if ps == [] then []
    else MonthPart(s, ps[..|ps| - 1], locale, cal, year, now) + MonthEntry(s, ps[|ps| - 1], locale, cal, year, now)
  }

  /** The date `n` calendar years before `date`, if the calendar has one. */
  function YearsBefore(cal: Calendar, date: Date, n: int): Option<Date>
  {
    cal.addYears(-n, date)
  }

  /** The first `k` of the years counted back from a detected date, skipping
    * those the calendar cannot produce. */
  function YearsBack(cal: Calendar, date: Date, k: nat): seq<Suggestion>
  {
    if k == 0 then []
    else
      var back := match YearsBefore(cal, date, k - 1)
        case Some(d) => [Suggestion(d, None)]
        case None => [];
      YearsBack(cal, date, k - 1) + back
  }

  /** A detected date in the future but not in the current year is moved
    * back a year, when the calendar can. */
  function AdjustedDate(cal: Calendar, date: Date, now: Date): Date
  {
    if date > now && !cal.sameYear(date, now) then cal.addYears(-1, date).GetOr(date) else date
  }

  /** Whether a digit query is taken as a year: four characters that parse as
    * an integer no later than the current year. */
  predicate IsYearQuery(s: string, year: int)
  {
    |s| == 4 && ParseInt(s).Some? && ParseInt(s).value <= year
  }

  function DetectedPart(s: string, locale: Locale, cal: Calendar, now: Date): seq<Suggestion>
  {
    match locale.detect(s)
    case None => []
    case Some(date) =>
      if date <= ReleaseDate then []
      else
        var d := AdjustedDate(cal, date, now);
        if PartsCount(s, locale.dateSeparator) < 3 then YearsBack(cal, d, YearsShown)
        else if d < now then [Suggestion(d, None)]
        else []
  }

  /** The suggestions for a query with a digit in it. */
  function NumericPart(s: string, locale: Locale, cal: Calendar, year: int, now: Date): seq<Suggestion>
  {
    if IsYearQuery(s, year) then
      var value := ParseInt(s).value;
      var date := cal.endOfMonth(12, value);
      if date > ReleaseDate then [Suggestion(date, Some(DecimalString(value)))] else []
    else DetectedPart(s, locale, cal, now)
  }

  /** All suggestions for a query, in the order they are produced. */
  function Suggestions(query: string, locale: Locale, cal: Calendar, now: Date): seq<Suggestion>
  {
    var s := locale.fold(query);
    if |s| < 3 || cal.currentYear.None? then []
    else
      DayWordPart(s, locale, cal, now)
      + (if HasDigit(s) then NumericPart(s, locale, cal, cal.currentYear.value, now)
         else WeekdayPart(s, locale.weekDays, locale, cal, now)
              + MonthPart(s, locale.months, locale, cal, cal.currentYear.value, now))
  }

  // ---------------------------------------------------------------------
  // Properties
  // ---------------------------------------------------------------------

  /** A query shorter than three characters once folded gives nothing; so
    * does a calendar without a current year. */
  lemma ShortQueryNoSuggestions(query: string, locale: Locale, cal: Calendar, now: Date)
    requires |locale.fold(query)| < 3 || cal.currentYear.None?
    ensures Suggestions(query, locale, cal, now) == []
  {
  }

  /** A query with a digit never matches a weekday or a month name: its
    * suggestions are the day words and the numeric ones only. A query
    * without a digit is never read as a year or handed to the detector. */
  lemma DigitQueriesSkipNames(query: string, locale: Locale, cal: Calendar, now: Date)
    requires |locale.fold(query)| >= 3 && cal.currentYear.Some?
    ensures var s := locale.fold(query);
      HasDigit(s) ==> Suggestions(query, locale, cal, now)
                      == DayWordPart(s, locale, cal, now) + NumericPart(s, locale, cal, cal.currentYear.value, now)
    ensures var s := locale.fold(query);
      !HasDigit(s) ==> Suggestions(query, locale, cal, now)
                       == DayWordPart(s, locale, cal, now)
                          + WeekdayPart(s, locale.weekDays, locale, cal, now)
                          + MonthPart(s, locale.months, locale, cal, cal.currentYear.value, now)
  {
  }

  /** "Today" comes first when its name begins with the query, then
    * "yesterday" when its name does; nothing else is a day word. */
  lemma DayWordFacts(s: string, locale: Locale, cal: Calendar, now: Date)
    ensures var part := DayWordPart(s, locale, cal, now);
      && |part| == (if IsPrefix(s, locale.lower(locale.today)) then 1 else 0)
                   + (if IsPrefix(s, locale.lower(locale.yesterday)) then 1 else 0)
      && (IsPrefix(s, locale.lower(locale.today)) ==> part[0].title == Some(locale.today))
      && (IsPrefix(s, locale.lower(locale.yesterday)) ==> part[|part| - 1].title == Some(locale.yesterday))
      && (forall i :: 0 <= i < |part| ==> part[i].title.Some?)
  {
  }

  /** Five dates, each seven days of 24 hours before the previous one; the
    * weekday name labels exactly the dates in the current week. */
  lemma {:induction false} WeekRunFacts(upper: Date, now: Date, title: string, cal: Calendar, k: nat)
    ensures var run := WeekRun(upper, now, title, cal, k);
      && |run| == k
      && (forall i :: 0 <= i < k ==> run[i].date == upper - WeekSeconds * i)
      && (forall i :: 0 < i < k ==> run[i - 1].date - run[i].date == WeekSeconds)
      && (forall i :: 0 <= i < k ==>
            (run[i].title == Some(title) <==> cal.sameWeek(run[i].date, now))
            && (run[i].title.Some? ==> run[i].title == Some(title)))
    decreases k
  {
    if k > 0 {
      WeekRunFacts(upper, now, title, cal, k - 1);
    }
  }

  /** A matched weekday gives five dates (none when the calendar finds no
    * such day); an unmatched one gives none. The weekday asked for is the
    * name's key shifted by the calendar's first weekday. */
  lemma WeekdayEntryFacts(s: string, p: NamePair, locale: Locale, cal: Calendar, now: Date)
    ensures var entry := WeekdayEntry(s, p, locale, cal, now);
      && (|entry| == 0 || |entry| == 5)
      && (|entry| == 5 <==> NameMatches(s, locale.lower(p.full), locale.lower(p.short))
                             && cal.lastWeekday(p.index + cal.firstWeekday, now).Some?)
  {
    if NameMatches(s, locale.lower(p.full), locale.lower(p.short)) && cal.lastWeekday(p.index + cal.firstWeekday, now).Some? {
      WeekRunFacts(cal.endOfDay(cal.lastWeekday(p.index + cal.firstWeekday, now).value), now, p.full, cal, WeeksShown);
    }
  }

  /** The kept years run strictly downwards from `year`, no further back than
    * `year - k + 1`, and a year is kept exactly when its month ends inside
    * the window. */
  lemma {:induction false} MonthYearsFacts(cal: Calendar, month: int, year: int, now: Date, k: nat)
    ensures var ys := MonthYears(cal, month, year, now, k);
      && |ys| <= k
      && (forall i, j :: 0 <= i < j < |ys| ==> ys[i] > ys[j])
      && (forall y :: y in ys <==> (year - k < y <= year && InWindow(cal.endOfMonth(month, y), now)))
    decreases k
  {
    if k > 0 {
      MonthYearsFacts(cal, month, year, now, k - 1);
      var prev := MonthYears(cal, month, year, now, k - 1);
      assert forall i :: 0 <= i < |prev| ==> prev[i] in prev;
    }
  }

  /** A matched month gives at most eight dates, the ends of that month in
    * the years from the current one back seven, newest first, each inside
    * the window and unlabelled. */
  lemma MonthEntryFacts(s: string, p: NamePair, locale: Locale, cal: Calendar, year: int, now: Date)
    ensures var entry := MonthEntry(s, p, locale, cal, year, now);
      && |entry| <= 8
      && (entry != [] ==> NameMatches(s, locale.lower(p.full), locale.lower(p.short)))
      && (forall i :: 0 <= i < |entry| ==>
            && entry[i].title.None?
            && InWindow(entry[i].date, now)
            && exists y :: year - 8 < y <= year && entry[i].date == cal.endOfMonth(p.index, y))
  {
    var ys := MonthYears(cal, p.index, year, now, MonthYearsShown);
    MonthYearsFacts(cal, p.index, year, now, MonthYearsShown);
    var entry := MonthEntry(s, p, locale, cal, year, now);
    forall i | 0 <= i < |entry|
      ensures exists y :: year - 8 < y <= year && entry[i].date == cal.endOfMonth(p.index, y)
    {
      assert ys[i] in ys;
    }
  }

  /** A year query gives at most one suggestion: the end of that December,
    * labelled with the year, and only after the release date. */
  lemma YearQueryFacts(s: string, locale: Locale, cal: Calendar, year: int, now: Date)
    requires IsYearQuery(s, year)
    ensures var part := NumericPart(s, locale, cal, year, now);
      var value := ParseInt(s).value;
      && |part| <= 1
      && (|part| == 1 <==> cal.endOfMonth(12, value) > ReleaseDate)
      && (|part| == 1 ==> part[0].date == cal.endOfMonth(12, value)
                          && part[0].title == Some(DecimalString(value))
                          && ParseInt(part[0].title.value) == Some(value))
  {
    DecimalStringRoundTrip(ParseInt(s).value);
  }

  /** A four-digit year without a leading zero is labelled with the query
    * itself. */
  lemma YearLabelIsQuery(s: string, locale: Locale, cal: Calendar, year: int, now: Date)
    requires |s| == 4 && AllDigits(s) && s[0] != '0'
    requires DigitsValue(s) <= year && cal.endOfMonth(12, DigitsValue(s)) > ReleaseDate
    ensures NumericPart(s, locale, cal, year, now) == [Suggestion(cal.endOfMonth(12, DigitsValue(s)), Some(s))]
  {
    NatStringOfDigits(s);
  }

  lemma {:induction false} YearsBackFacts(cal: Calendar, date: Date, k: nat)
    ensures var run := YearsBack(cal, date, k);
      && |run| <= k
      && (forall i :: 0 <= i < |run| ==> run[i].title.None?)
      && (forall i :: 0 <= i < |run| ==>
            exists n :: 0 <= n < k && YearsBefore(cal, date, n) == Some(run[i].date))
    decreases k
  {
    if k > 0 {
      YearsBackFacts(cal, date, k - 1);
      var run := YearsBack(cal, date, k);
      var prev := YearsBack(cal, date, k - 1);
      forall i | 0 <= i < |run|
        ensures exists n :: 0 <= n < k && YearsBefore(cal, date, n) == Some(run[i].date)
      {
        if i < |prev| {
          assert run[i] == prev[i];
          var n :| 0 <= n < k - 1 && YearsBefore(cal, date, n) == Some(prev[i].date);
        } else {
          assert YearsBefore(cal, date, k - 1) == Some(run[i].date);
        }
      }
    }
  }

  /** When the calendar can go back each of the `k` years, the run holds
    * all of them, one for each count of years back, in order. */
  lemma {:induction false} YearsBackComplete(cal: Calendar, date: Date, k: nat)
    requires forall n :: 0 <= n < k ==> YearsBefore(cal, date, n).Some?
    ensures var run := YearsBack(cal, date, k);
      |run| == k && forall n :: 0 <= n < k ==> YearsBefore(cal, date, n) == Some(run[n].date)
    decreases k
  {
    if k > 0 {
      YearsBackComplete(cal, date, k - 1);
      var run := YearsBack(cal, date, k);
      var prev := YearsBack(cal, date, k - 1);
      assert run[..k - 1] == prev;
      assert forall n :: 0 <= n < k - 1 ==> run[n] == prev[n];
    }
  }

  /** A detected date after the release gives, for a query of fewer than
    * three separated parts, up to five unlabelled dates a calendar year
    * apart going back from the (adjusted) date; for a fuller query, the
    * adjusted date alone if it is in the past. */
  lemma DetectedPartFacts(s: string, locale: Locale, cal: Calendar, now: Date)
    ensures var part := DetectedPart(s, locale, cal, now);
      && (part != [] ==> locale.detect(s).Some? && locale.detect(s).value > ReleaseDate)
      && (forall i :: 0 <= i < |part| ==> part[i].title.None?)
      && (PartsCount(s, locale.dateSeparator) < 3 ==> |part| <= 5)
      && (PartsCount(s, locale.dateSeparator) >= 3 ==>
            |part| <= 1
            && (|part| == 1 ==>
                  part[0].date == AdjustedDate(cal, locale.detect(s).value, now) && part[0].date < now))
      && (part != [] && PartsCount(s, locale.dateSeparator) < 3 ==>
            var d := AdjustedDate(cal, locale.detect(s).value, now);
            forall i :: 0 <= i < |part| ==>
              exists n :: 0 <= n < 5 && YearsBefore(cal, d, n) == Some(part[i].date))
  {
    if locale.detect(s).Some? && locale.detect(s).value > ReleaseDate {
      YearsBackFacts(cal, AdjustedDate(cal, locale.detect(s).value, now), YearsShown);
    }
  }

  // ---------------------------------------------------------------------
  // The imperative builder
  // ---------------------------------------------------------------------

  lemma WeekdayPartStep(s: string, days: seq<NamePair>, j: nat, locale: Locale, cal: Calendar, now: Date)
    requires j < |days|
    ensures WeekdayPart(s, days[..j + 1], locale, cal, now)
         == WeekdayPart(s, days[..j], locale, cal, now) + WeekdayEntry(s, days[j], locale, cal, now)
  {
    assert days[..j + 1][..j] == days[..j];
  }

  /** Appending a section in two steps appends it at once. */
  lemma AppendAssoc(r: seq<Suggestion>, a: seq<Suggestion>, b: seq<Suggestion>)
    ensures r + a + b == r + (a + b)
  {
  }

  lemma MonthPartStep(s: string, months: seq<NamePair>, j: nat, locale: Locale, cal: Calendar, year: int, now: Date)
    requires j < |months|
    ensures MonthPart(s, months[..j + 1], locale, cal, year, now)
         == MonthPart(s, months[..j], locale, cal, year, now) + MonthEntry(s, months[j], locale, cal, year, now)
  {
    assert months[..j + 1][..j] == months[..j];
  }

  /** Five weeks back from `upper`, labelling the dates in the current
    * week with the weekday's name. */
  method AppendWeekRun(result0: seq<Suggestion>, upper: Date, now: Date, name: string, cal: Calendar)
    returns (result: seq<Suggestion>)
    ensures result == result0 + WeekRun(upper, now, name, cal, WeeksShown)
  {
    result := result0;
    var i := 0;
    while i < WeeksShown
      invariant 0 <= i <= WeeksShown
      invariant result == result0 + WeekRun(upper, now, name, cal, i)
    {
      var date := upper - WeekSeconds * i;
      if cal.sameWeek(date, now) {
        result := result + [Suggestion(date, Some(name))];
      } else {
        result := result + [Suggestion(date, None)];
      }
      i := i + 1;
    }
  }

  /** One weekday: five weeks back from the end of its latest occurrence,
    * when its name matches. */
  method AppendWeekdayEntry(result0: seq<Suggestion>, s: string, p: NamePair, locale: Locale, cal: Calendar, now: Date)
    returns (result: seq<Suggestion>)
    ensures result == result0 + WeekdayEntry(s, p, locale, cal, now)
  {
    result := result0;
    if NameMatches(s, locale.lower(p.full), locale.lower(p.short)) {
      var found := cal.lastWeekday(p.index + cal.firstWeekday, now);
      if found.Some? {
        result := AppendWeekRun(result, cal.endOfDay(found.value), now, p.full, cal);
      }
    }
  }

  /** The weekday section: for every matching weekday, five weeks back from
    * the end of its latest occurrence. */
  method AppendWeekdays(result0: seq<Suggestion>, s: string, locale: Locale, cal: Calendar, now: Date)
    returns (result: seq<Suggestion>)
    ensures result == result0 + WeekdayPart(s, locale.weekDays, locale, cal, now)
  {
    result := result0;
    var days := locale.weekDays;
    var j := 0;
    while j < |days|
      invariant 0 <= j <= |days|
      invariant result == result0 + WeekdayPart(s, days[..j], locale, cal, now)
    {
      ghost var before := WeekdayPart(s, days[..j], locale, cal, now);
      result := AppendWeekdayEntry(result, s, days[j], locale, cal, now);
      WeekdayPartStep(s, days, j, locale, cal, now);
      AppendAssoc(result0, before, WeekdayEntry(s, days[j], locale, cal, now));
      j := j + 1;
    }
    assert days[..j] == days;
  }

  /** The ends of `month` in `year` and the seven years before, newest
    * first, that fall inside the window. */
  method AppendMonthYears(result0: seq<Suggestion>, cal: Calendar, month: int, year: int, now: Date)
    returns (result: seq<Suggestion>)
    ensures result == result0 + MonthEntries(cal, month, MonthYears(cal, month, year, now, MonthYearsShown))
  {
    result := result0;
    var k := 0;
    while k < MonthYearsShown
      invariant 0 <= k <= MonthYearsShown
      invariant result == result0 + MonthEntries(cal, month, MonthYears(cal, month, year, now, k))
    {
      var y := year - k;
      var date := cal.endOfMonth(month, y);
      ghost var ys := MonthYears(cal, month, year, now, k);
      if date <= now && date > ReleaseDate {
        result := result + [Suggestion(date, None)];
        assert MonthEntries(cal, month, ys + [y]) == MonthEntries(cal, month, ys) + [Suggestion(date, None)];
      } else {
        assert MonthYears(cal, month, year, now, k + 1) == ys;
      }
      k := k + 1;
    }
  }

  /** One month: its ends in the current year and the seven before, when its
    * name matches. */
  method AppendMonthEntry(result0: seq<Suggestion>, s: string, p: NamePair, locale: Locale, cal: Calendar, year: int, now: Date)
    returns (result: seq<Suggestion>)
    ensures result == result0 + MonthEntry(s, p, locale, cal, year, now)
  {
    result := result0;
    if NameMatches(s, locale.lower(p.full), locale.lower(p.short)) {
      result := AppendMonthYears(result, cal, p.index, year, now);
    }
  }

  /** The month section: for every matching month, its ends in the current
    * year and the seven before, newest first, inside the window. */
  method AppendMonths(result0: seq<Suggestion>, s: string, locale: Locale, cal: Calendar, year: int, now: Date)
    returns (result: seq<Suggestion>)
    ensures result == result0 + MonthPart(s, locale.months, locale, cal, year, now)
  {
    result := result0;
    var months := locale.months;
    var j := 0;
    while j < |months|
      invariant 0 <= j <= |months|
      invariant result == result0 + MonthPart(s, months[..j], locale, cal, year, now)
    {
      ghost var before := MonthPart(s, months[..j], locale, cal, year, now);
      result := AppendMonthEntry(result, s, months[j], locale, cal, year, now);
      MonthPartStep(s, months, j, locale, cal, year, now);
      AppendAssoc(result0, before, MonthEntry(s, months[j], locale, cal, year, now));
      j := j + 1;
    }
    assert months[..j] == months;
  }

  /** The section for a query with a digit: a year, or whatever the
    * detector finds. */
  method AppendNumeric(result0: seq<Suggestion>, s: string, locale: Locale, cal: Calendar, year: int, now: Date)
    returns (result: seq<Suggestion>)
    ensures result == result0 + NumericPart(s, locale, cal, year, now)
  {
    result := result0;
    if |s| == 4 && ParseInt(s).Some? && ParseInt(s).value <= year {
      var value := ParseInt(s).value;
      var date := cal.endOfMonth(12, value);
      if date > ReleaseDate {
        result := result + [Suggestion(date, Some(DecimalString(value)))];
      }
    } else {
      var found := locale.detect(s);
      if found.Some? && found.value > ReleaseDate {
        var resultDate := found.value;
        if resultDate > now && !cal.sameYear(resultDate, now) {
          var earlier := cal.addYears(-1, resultDate);
          if earlier.Some? {
            resultDate := earlier.value;
          }
        }
        if PartsCount(s, locale.dateSeparator) < 3 {
          var i := 0;
          while i < YearsShown
            invariant 0 <= i <= YearsShown
            invariant result == result0 + YearsBack(cal, resultDate, i)
          {
            var date := YearsBefore(cal, resultDate, i);
            if date.Some? {
              result := result + [Suggestion(date.value, None)];
            }
            i := i + 1;
          }
        } else if resultDate < now {
          result := result + [Suggestion(resultDate, None)];
        }
      }
    }
  }

  /** `suggestDates`: the suggestions for a search query at time `now`. */
  method SuggestDates(query: string, locale: Locale, cal: Calendar, now: Date) returns (result: seq<Suggestion>)
    ensures result == Suggestions(query, locale, cal, now)
  {
    var s := locale.fold(query);
    if |s| < 3 {
      return [];
    }
    if cal.currentYear.None? {
      return [];
    }
    var year := cal.currentYear.value;
    result := [];
    var midnight := cal.startOfDay(now);
    if IsPrefix(s, locale.lower(locale.today)) {
      result := result + [Suggestion(cal.endOfDay(midnight), Some(locale.today))];
    }
    if IsPrefix(s, locale.lower(locale.yesterday)) {
      result := result + [Suggestion(cal.endOfDay(cal.dayBefore(midnight)), Some(locale.yesterday))];
    }
    assert result == DayWordPart(s, locale, cal, now);
    var hasDigit := false;
    var i := 0;
    while i < |s|
      invariant 0 <= i <= |s|
      invariant hasDigit <==> exists k :: 0 <= k < i && IsDigit(s[k])
    {
      if IsDigit(s[i]) {
        hasDigit := true;
      }
      i := i + 1;
    }
    DigitQueriesSkipNames(query, locale, cal, now);
    assert hasDigit == HasDigit(s);
    if hasDigit {
      result := AppendNumeric(result, s, locale, cal, year, now);
    } else {
      result := AppendWeekdays(result, s, locale, cal, now);
      result := AppendMonths(result, s, locale, cal, year, now);
    }
  }
}
