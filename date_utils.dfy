/**
 * Weekday calendar arithmetic, the two business-day iterators, the dividend
 * date-format classifier with its 1970 year guess, and the parseDate memo
 * cache of the DateUtils helper class.
 *
 * A date is a day number counted from 1970-01-01, which was a Thursday, so
 * that DayOfWeek agrees with java.time's ISO day of week (0 = Monday).
 */
module DateUtils {
  import opened Wrappers

  type Date = int

  const Monday := 0
  const Friday := 4
  const Saturday := 5
  const Sunday := 6

  function DayOfWeek(d: Date): (w: int)
    ensures 0 <= w < 7
  {
    (d + 3) % 7
  }

  predicate IsWeekend(d: Date) {
    DayOfWeek(d) == Saturday || DayOfWeek(d) == Sunday
  }

  predicate IsWeekday(d: Date) {
    !IsWeekend(d)
  }

  /** How many one-day steps back a weekend date still is from Friday. */
  function WeekendDepth(d: Date): nat {
    if DayOfWeek(d) == Sunday then 2 else if DayOfWeek(d) == Saturday then 1 else 0
  }

  // ---------------------------------------------------------------------------
  // getPreviousDate / getLastWeekday: mutual recursion, one day per step
  // ---------------------------------------------------------------------------

  /** getPreviousDate: step back one day, then to the last weekday. */
  function PreviousDate(d: Date): (r: Date)
    decreases WeekendDepth(d - 1), 2
    ensures r < d && d - 3 <= r
    ensures IsWeekday(r)
    ensures forall x :: r < x < d ==> IsWeekend(x)
    ensures IsWeekday(d - 1) ==> r == d - 1
  {
    LastWeekday(d - 1)
  }

  /** getLastWeekday: a weekend date recurses through getPreviousDate. */
  function LastWeekday(d: Date): (r: Date)
    decreases WeekendDepth(d), 1
    ensures IsWeekday(d) ==> r == d
    ensures DayOfWeek(d) == Saturday ==> r == d - 1
    ensures DayOfWeek(d) == Sunday ==> r == d - 2
    ensures IsWeekday(r) && d - 2 <= r <= d
    ensures forall x :: r < x <= d ==> IsWeekend(x)
  {
    if DayOfWeek(d) == Saturday || DayOfWeek(d) == Sunday then PreviousDate(d) else d
  }

  lemma LastWeekdayIdempotent(d: Date)
    ensures LastWeekday(LastWeekday(d)) == LastWeekday(d)
  {
  }

  /** LastWeekday(d) is the latest weekday on or before d. */
  lemma LastWeekdayIsLatest(d: Date, w: Date)
    requires IsWeekday(w) && w <= d
    ensures w <= LastWeekday(d)
  {
  }

  lemma LastWeekdayMonotonic(d1: Date, d2: Date)
    requires d1 <= d2
    ensures LastWeekday(d1) <= LastWeekday(d2)
  {
    LastWeekdayIsLatest(d2, LastWeekday(d1));
  }

  // ---------------------------------------------------------------------------
  // getLocalDateIterator: oldest to most recent
  // ---------------------------------------------------------------------------

  /** Where the ascending cursor moves after yielding d: Friday skips to Monday. */
  function AscendingStep(d: Date): Date {
    if DayOfWeek(d) == Friday then d + 3 else d + 1
  }

  /** The dates the ascending iterator yields from cursor `from`, in order. */
  function AscendingRun(from: Date, to: Date): seq<Date>
    decreases to - from + 3
  {
    if from > to then [] else [from] + AscendingRun(AscendingStep(from), to)
  }

  lemma {:induction false} AscendingRunStrictlyIncreasing(from: Date, to: Date)
    decreases to - from + 3
    ensures forall i :: 0 <= i < |AscendingRun(from, to)| ==> from <= AscendingRun(from, to)[i] <= to
    ensures forall i, j :: 0 <= i < j < |AscendingRun(from, to)| ==> AscendingRun(from, to)[i] < AscendingRun(from, to)[j]
  {
    if from <= to {
      AscendingRunStrictlyIncreasing(AscendingStep(from), to);
    }
  }

  /**
   * Exactly which dates the ascending iterator yields: every weekday in
   * [from, to], plus a weekend start date itself (and the Sunday after a
   * Saturday start), because the skip fires only after a Friday.
   */
  lemma {:induction false} AscendingRunMembers(from: Date, to: Date, x: Date)
    decreases to - from + 3
    ensures x in AscendingRun(from, to) <==>
      from <= x <= to && (IsWeekday(x) || (IsWeekend(from) && x <= from + 1))
  {
    if from <= to {
      var s := AscendingStep(from);
      AscendingRunMembers(s, to, x);
      assert AscendingRun(from, to) == [from] + AscendingRun(s, to);
      if DayOfWeek(from) == Friday {
        assert IsWeekend(from + 1) && IsWeekend(from + 2) && IsWeekday(s);
      } else if DayOfWeek(from) == Saturday {
        assert DayOfWeek(s) == Sunday && IsWeekday(from + 2);
      } else {
        assert IsWeekday(s);
      }
    }
  }

  lemma WeekdayStartYieldsExactlyWeekdays(from: Date, to: Date, x: Date)
    requires IsWeekday(from)
    ensures x in AscendingRun(from, to) <==> from <= x <= to && IsWeekday(x)
  {
    AscendingRunMembers(from, to, x);
  }

  /** The iterator object: each next() returns nextDate and advances it. */
  class WeekdayIterator {
    var nextDate: Date
    const mostRecentDate: Date

    constructor (oldestDate: Date, mostRecentDate: Date)
      ensures nextDate == oldestDate && this.mostRecentDate == mostRecentDate
      ensures Remaining() == AscendingRun(oldestDate, mostRecentDate)
    {
      nextDate := oldestDate;
      this.mostRecentDate := mostRecentDate;
    }

    /** The dates still to be yielded. */
    ghost function Remaining(): seq<Date>
      reads this
    {
      AscendingRun(nextDate, mostRecentDate)
    }

    method HasNext() returns (b: bool)
      ensures b <==> Remaining() != []
    {
      b := nextDate < mostRecentDate || nextDate == mostRecentDate;
    }

    method Next() returns (current: Date)
      modifies this
      ensures current == old(nextDate) && nextDate == AscendingStep(old(nextDate))
      ensures old(Remaining()) != [] ==> current == old(Remaining())[0] && Remaining() == old(Remaining())[1..]
      ensures old(Remaining()) == [] ==> Remaining() == []
    {
      current := nextDate;
      if DayOfWeek(nextDate) == Friday {
        nextDate := nextDate + 2;
      }
      nextDate := nextDate + 1;
    }
  }

  // ---------------------------------------------------------------------------
  // getLocalDateNewToOldIterator: most recent to oldest
  // ---------------------------------------------------------------------------

  /** The descending cursor's weekend correction, applied inside next(). */
  function SkipWeekendBack(d: Date): Date {
    var afterSunday := if DayOfWeek(d) == Sunday then d - 2 else d;
    if DayOfWeek(afterSunday) == Saturday then afterSunday - 1 else afterSunday
  }

  lemma SkipWeekendBackIsLastWeekday(d: Date)
    ensures SkipWeekendBack(d) == LastWeekday(d)
  {
  }

  /** The dates the descending iterator yields from cursor `cur`, in order. */
  function DescendingRun(cur: Date, last: Date): seq<Date>
    decreases cur - last + 3
  {
    if cur < last then []
    else
      var c := SkipWeekendBack(cur);
      [c] + DescendingRun(c - 1, last)
  }

  lemma {:induction false} DescendingRunShape(cur: Date, last: Date)
    decreases cur - last + 3
    ensures forall i :: 0 <= i < |DescendingRun(cur, last)| ==>
      IsWeekday(DescendingRun(cur, last)[i]) && last - 2 <= DescendingRun(cur, last)[i] <= cur
    ensures forall i, j :: 0 <= i < j < |DescendingRun(cur, last)| ==> DescendingRun(cur, last)[i] > DescendingRun(cur, last)[j]
  {
    if cur >= last {
      var c := SkipWeekendBack(cur);
      SkipWeekendBackIsLastWeekday(cur);
      DescendingRunShape(c - 1, last);
    }
  }

  /**
   * Exactly which dates the descending iterator yields: the weekdays from
   * the last weekday on or before `last` up to `cur`; nothing when cur < last.
   */
  lemma {:induction false} DescendingRunMembers(cur: Date, last: Date, x: Date)
    decreases cur - last + 3
    ensures x in DescendingRun(cur, last) <==>
      last <= cur && IsWeekday(x) && LastWeekday(last) <= x <= cur
  {
    if cur >= last {
      var c := SkipWeekendBack(cur);
      SkipWeekendBackIsLastWeekday(cur);
      DescendingRunMembers(c - 1, last, x);
      assert DescendingRun(cur, last) == [c] + DescendingRun(c - 1, last);
      LastWeekdayMonotonic(last, cur);
      if IsWeekday(x) && LastWeekday(last) <= x < c && c - 1 < last {
        LastWeekdayIsLatest(last, c);
      }
    }
  }

  class NewToOldIterator {
    var nextDate: Date
    const lastDate: Date

    constructor (startDate: Date, lastDate: Date)
      ensures nextDate == startDate && this.lastDate == lastDate
      ensures Remaining() == DescendingRun(startDate, lastDate)
    {
      nextDate := startDate;
      this.lastDate := lastDate;
    }

    ghost function Remaining(): seq<Date>
      reads this
    {
      DescendingRun(nextDate, lastDate)
    }

    method HasNext() returns (b: bool)
      ensures b <==> Remaining() != []
    {
      b := nextDate > lastDate || nextDate == lastDate;
    }

    method Next() returns (current: Date)
      modifies this
      ensures current == LastWeekday(old(nextDate)) && nextDate == current - 1
      ensures old(Remaining()) != [] ==> current == old(Remaining())[0] && Remaining() == old(Remaining())[1..]
      ensures old(Remaining()) == [] ==> Remaining() == []
    {
      SkipWeekendBackIsLastWeekday(nextDate);
      if DayOfWeek(nextDate) == Sunday {
        nextDate := nextDate - 2;
      }
      if DayOfWeek(nextDate) == Saturday {
        nextDate := nextDate - 1;
      }
      current := nextDate;
      nextDate := nextDate - 1;
    }
  }

  // ---------------------------------------------------------------------------
  // getDividendDateFormat
  // ---------------------------------------------------------------------------

  predicate IsDigit(c: char) {
    '0' <= c <= '9'
  }

  /** What `.` matches in a java.util.regex pattern: anything but a line terminator. */
  predicate IsRegexAny(c: char) {
    c != '\n' && c != '\r' && c != '\U{0085}' && c != '\U{2028}' && c != '\U{2029}'
  }

  /** Whole-string match of [0-9][0-9]-...-[0-9][0-9]. */
  predicate IsTwoDigitDayShape(s: string) {
    && |s| == 9
    && IsDigit(s[0]) && IsDigit(s[1]) && s[2] == '-'
    && IsRegexAny(s[3]) && IsRegexAny(s[4]) && IsRegexAny(s[5])
    && s[6] == '-' && IsDigit(s[7]) && IsDigit(s[8])
  }

  /** Whole-string match of [0-9]-...-[0-9][0-9]. */
  predicate IsOneDigitDayShape(s: string) {
    && |s| == 8
    && IsDigit(s[0]) && s[1] == '-'
    && IsRegexAny(s[2]) && IsRegexAny(s[3]) && IsRegexAny(s[4])
    && s[5] == '-' && IsDigit(s[6]) && IsDigit(s[7])
  }

  /** Whole-string match of [ ]*[0-9]+. */
  predicate IsSpacesThenDigits(t: string)
    decreases |t|
  {
    |t| > 0 && if t[0] == ' ' then IsSpacesThenDigits(t[1..]) else forall i :: 0 <= i < |t| ==> IsDigit(t[i])
  }

  /** Whole-string match of ...[ ]+[0-9]+. */
  predicate IsMonthDayShape(s: string) {
    && |s| >= 4
    && IsRegexAny(s[0]) && IsRegexAny(s[1]) && IsRegexAny(s[2])
    && s[3] == ' ' && IsSpacesThenDigits(s[4..])
  }

  lemma {:induction false} SpacesThenDigitsChars(t: string, i: int)
    decreases |t|
    requires IsSpacesThenDigits(t) && 0 <= i < |t|
    ensures t[i] == ' ' || IsDigit(t[i])
  {
    if t[0] == ' ' && i > 0 {
      SpacesThenDigitsChars(t[1..], i - 1);
    }
  }

  /** No string has two of the shapes, so the order of the tests is immaterial. */
  lemma DividendShapesDisjoint(s: string)
    ensures !(IsTwoDigitDayShape(s) && IsOneDigitDayShape(s))
    ensures !(IsTwoDigitDayShape(s) && IsMonthDayShape(s))
    ensures !(IsOneDigitDayShape(s) && IsMonthDayShape(s))
  {
    if IsTwoDigitDayShape(s) && IsMonthDayShape(s) {
      SpacesThenDigitsChars(s[4..], 2);
    }
    if IsOneDigitDayShape(s) && IsMonthDayShape(s) {
      SpacesThenDigitsChars(s[4..], 1);
    }
  }

  const TwoDigitDayFormat: string := "dd-MMM-yy"
  const OneDigitDayFormat: string := "d-MMM-yy"
  const MonthDayFormat: string := "MMM d"
  const NumericFormat: string := "M/d/yy"

  function DividendDateFormat(date: string): (r: string)
    ensures r == TwoDigitDayFormat <==> IsTwoDigitDayShape(date)
    ensures r == OneDigitDayFormat <==> IsOneDigitDayShape(date)
    ensures r == MonthDayFormat <==> IsMonthDayShape(date)
    ensures r == NumericFormat <==>
      !IsTwoDigitDayShape(date) && !IsOneDigitDayShape(date) && !IsMonthDayShape(date)
  {
    DividendShapesDisjoint(date);
    if IsTwoDigitDayShape(date) then TwoDigitDayFormat
    else if IsOneDigitDayShape(date) then OneDigitDayFormat
    else if IsMonthDayShape(date) then MonthDayFormat
    else NumericFormat
  }

  // ---------------------------------------------------------------------------
  // parseDividendDate: the year guess for dates parsed without a year
  // ---------------------------------------------------------------------------

  /**
   * The year parseDividendDate settles on. Months are java.util.Calendar
   * months, 0 (January) to 11 (December).
   */
  function GuessDividendYear(parsedYear: int, parsedMonth: int, todayYear: int, todayMonth: int): (year: int)
    requires 0 <= parsedMonth < 12 && 0 <= todayMonth < 12
    ensures parsedYear != 1970 ==> year == parsedYear
    ensures parsedYear == 1970 ==> todayYear - 1 <= year <= todayYear + 1
    ensures parsedYear == 1970 ==>
      -6 <= (year * 12 + parsedMonth) - (todayYear * 12 + todayMonth) <= 6
    ensures parsedYear == 1970 && -6 <= parsedMonth - todayMonth <= 6 ==> year == todayYear
  {
    if parsedYear == 1970 then
      var monthDiff := parsedMonth - todayMonth;
      if monthDiff > 6 then todayYear - 1
      else if monthDiff < -6 then todayYear + 1
      else todayYear
    else
      parsedYear
  }

  // ---------------------------------------------------------------------------
  // parseDate: the memo cache
  // ---------------------------------------------------------------------------

  /**
   * One computeIfAbsent on the cache: the cached value if present, otherwise
   * the parse, recorded only when it succeeds (a parse failure throws and
   * leaves the cache as it was).
   */
  function Memoised(dates: map<string, Date>, key: string, parseIso: string -> Option<Date>): (out: (map<string, Date>, Option<Date>))
    ensures out.1.Some? <==> key in dates || parseIso(key).Some?
    ensures out.1.Some? ==> key in out.0 && out.0[key] == out.1.value
    ensures out.1.None? ==> out.0 == dates
    ensures key in dates ==> out.1 == Some(dates[key])
  {
    if key in dates then (dates, Some(dates[key]))
    else
      match parseIso(key)
      case Some(d) => (dates[key := d], Some(d))
      case None => (dates, None)
  }

  /** The cache only grows, and an entry, once made, is never replaced. */
  lemma MemoisedOnlyGrows(dates: map<string, Date>, key: string, parseIso: string -> Option<Date>)
    ensures var after := Memoised(dates, key, parseIso).0;
      forall k :: k in dates ==> k in after && after[k] == dates[k]
    ensures Memoised(dates, key, parseIso).0.Keys <= dates.Keys + {key}
  {
  }

  /** A later call for the same string returns the same value, whatever the parser says then. */
  lemma MemoisedIsStable(dates: map<string, Date>, key: string, first: string -> Option<Date>, later: string -> Option<Date>)
    requires Memoised(dates, key, first).1.Some?
    ensures var (after, r) := Memoised(dates, key, first);
      Memoised(after, key, later) == (after, r)
  {
  }

  /** The static `dates` map; created lazily in the source, here created empty. */
  class DateCache {
    var dates: map<string, Date>

    constructor ()
      ensures dates == map[]
    {
      dates := map[];
    }

    /** parseDate; None stands for the DateTimeParseException of a failed parse. */
    method ParseDate(fieldValue: string, parseIso: string -> Option<Date>) returns (r: Option<Date>)
      modifies this
      ensures (dates, r) == Memoised(old(dates), fieldValue, parseIso)
      ensures fieldValue in old(dates) ==> r == Some(old(dates)[fieldValue]) && dates == old(dates)
    {
      if fieldValue in dates {
        r := Some(dates[fieldValue]);
      } else {
        r := parseIso(fieldValue);
        if r.Some? {
          dates := dates[fieldValue := r.value];
        }
      }
    }
  }
}
