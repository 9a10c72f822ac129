// EMDate: a year/month/day triple in which each field may separately be
// valid or not, with rolling month and day arithmetic and a "keep day" that
// month arithmetic clamps to.  The pure functions over DateVal state each
// operation; the class EMDate performs them in place, as the C++ members do,
// and each method is proved to compute its function.
//
// Integers are unbounded here: the int64 year and the int16 month, day and
// keep day of the C++ class are not wrapped.

module Date {
  import opened Support

  const INT64_MAX: int := 0x7fff_ffff_ffff_ffff
  const INT32_MAX: int := 0x7fff_ffff

  /** The fields of an EMDate. */
  datatype DateVal = DateVal(year: int, month: int, day: int, keepDay: int)

  // ---------------------------------------------------------------- builders

  /** EMDate(): an invalid date whose year is INT32_MAX (still a valid year). */
  function Default(): (r: DateVal)
    ensures r.year == INT32_MAX && r.month == 0 && r.day == 0 && r.keepDay == 0
    ensures IsYearValid(r) && !IsMonthValid(r) && !IsDayValid(r)
  {
    DateVal(INT32_MAX, 0, 0, 0)
  }

  /** EMDate(y, m, d): the fields verbatim, no keep day. */
  function Make(y: int, m: int := 0, d: int := 0): (r: DateVal)
    ensures r.year == y && r.month == m && r.day == d && !IsKeepDaySet(r)
  {
    DateVal(y, m, d, 0)
  }

  /** _year(y): only the year can be valid. */
  function YearOnly(y: int): (r: DateVal)
    ensures !IsMonthValid(r) && !IsDayValid(r)
    ensures IsYearValid(r) <==> y < INT64_MAX
    ensures IsValid(r) <==> y < INT64_MAX
  {
    Make(y)
  }

  /** _month(m): the year is the INT64_MAX sentinel, so only the month can be valid. */
  function MonthOnly(m: int): (r: DateVal)
    ensures !IsYearValid(r) && !IsDayValid(r)
    ensures IsMonthValid(r) <==> 1 <= m <= 12
  {
    Make(INT64_MAX, m)
  }

  /** _day(d): only the day can be valid, against a 31-day month. */
  function DayOnly(d: int): (r: DateVal)
    ensures !IsYearValid(r) && !IsMonthValid(r)
    ensures IsDayValid(r) <==> 1 <= d <= 31
  {
    Make(INT64_MAX, 0, d)
  }

  // -------------------------------------------------------------- predicates

  predicate IsYearValid(d: DateVal)
  {
    d.year < INT64_MAX
  }

  predicate IsMonthValid(d: DateVal)
  {
    0 < d.month < 13
  }

  predicate IsKeepDaySet(d: DateVal)
  {
    0 < d.keepDay < 32
  }

  /**
   * IsLeapYear(year): the INT64_MAX argument stands for "this date's year".
   * C++ `%` truncates, but only whether the remainder is zero is tested,
   * and that is the same under Dafny's Euclidean `%`.
   */
  function IsLeapYear(d: DateVal, year: int): (r: bool)
    ensures year != INT64_MAX ==> (r <==> year % 4 == 0 && (year % 100 != 0 || year % 400 == 0))
    ensures year == INT64_MAX && !IsYearValid(d) ==> !r
    ensures year == INT64_MAX && IsYearValid(d) ==> r == IsLeapYear(d, d.year)
  {
    if year == INT64_MAX && !IsYearValid(d) then false
    else
      var y := if year == INT64_MAX then d.year else year;
      if y % 4 != 0 then false
      else if y % 100 != 0 then true
      else y % 400 == 0
  }

  /**
   * DaysInMonth(month): an argument outside 1..12 stands for this date's
   * month, and gives 0 when that is invalid too.  February asks
   * IsLeapYear() with its default argument INT32_MAX, which is not the
   * INT64_MAX sentinel for "this date's year", so the year tested is
   * 2147483647 and February has 28 days (FebruaryAlways28).
   */
  function DaysInMonth(d: DateVal, month: int): (r: int)
    ensures r == 0 <==> !(1 <= month <= 12) && !IsMonthValid(d)
    ensures r == 0 || 28 <= r <= 31
  {
    if (month < 1 || month > 12) && !IsMonthValid(d) then 0
    else
      var m := if month < 1 || month > 12 then d.month else month;
      if m == 4 || m == 6 || m == 9 || m == 11 then 30
      else if m == 2 then (if IsLeapYear(d, INT32_MAX) then 29 else 28)
      else 31
  }

  /** The month table, stated month by month for an explicit argument. */
  lemma MonthTable(d: DateVal, month: int)
    requires 1 <= month <= 12
    ensures DaysInMonth(d, month) == 30 <==> month in {4, 6, 9, 11}
    ensures DaysInMonth(d, month) == 31 <==> month in {1, 3, 5, 7, 8, 10, 12}
    ensures DaysInMonth(d, month) < 30 <==> month == 2
  {
  }

  // ------------------------------------------------------------ the finding

  /**
   * The evident intent of DaysInMonth: February has 29 days in a leap year
   * of this date.  Nothing else in the model uses it.
   */
  function DaysInMonthIntended(d: DateVal, month: int): int
  {
    if (month < 1 || month > 12) && !IsMonthValid(d) then 0
    else
      var m := if month < 1 || month > 12 then d.month else month;
      if m == 4 || m == 6 || m == 9 || m == 11 then 30
      else if m == 2 then (if IsLeapYear(d, INT64_MAX) then 29 else 28)
      else 31
  }

  /**
   * Under the intended rule February has 29 days exactly when this date has
   * a valid year and that year is a Gregorian leap year, so the 29 February
   * 2000 of the documented keep-day table fits its month.
   */
  lemma LeapFebruary(d: DateVal)
    ensures DaysInMonthIntended(d, 2) == 29 <==>
      IsYearValid(d) && d.year % 4 == 0 && (d.year % 100 != 0 || d.year % 400 == 0)
    ensures DaysInMonthIntended(Make(2000, 2, 29), 0) == 29
    ensures DaysInMonthIntended(Make(1900, 2, 1), 2) == 28
  {
  }

  /**
   * As written, February never has 29 days, not even in 2000, so 29
   * February 2000 is not a valid day; the two rules differ only there.
   */
  lemma FebruaryAlways28(d: DateVal, month: int)
    ensures DaysInMonth(d, 2) == 28
    ensures IsLeapYear(d, 2000) && !IsLeapYear(d, INT32_MAX)
    ensures DaysInMonth(Make(2000, 2, 1), 2) != DaysInMonthIntended(Make(2000, 2, 1), 2)
    ensures !IsDayValid(Make(2000, 2, 29))
    ensures DaysInMonth(d, month) != DaysInMonthIntended(d, month) ==>
      DaysInMonthIntended(d, month) == 29 && DaysInMonth(d, month) == 28
  {
    assert INT32_MAX % 4 == 3;
  }

  /** The day counts against this month's length, or against 31 when the month is invalid. */
  predicate IsDayValid(d: DateVal)
  {
    var maxDays := if DaysInMonth(d, 0) == 0 then 31 else DaysInMonth(d, 0);
    0 < d.day < maxDays + 1
  }

  lemma DayValidBounds(d: DateVal)
    ensures IsDayValid(d) ==> 1 <= d.day <= 31
    ensures IsMonthValid(d) ==> (IsDayValid(d) <==> 1 <= d.day <= DaysInMonth(d, d.month))
    ensures !IsMonthValid(d) ==> (IsDayValid(d) <==> 1 <= d.day <= 31)
  {
  }

  /** Only one field needs to be valid. */
  predicate IsValid(d: DateVal)
  {
    IsYearValid(d) || IsMonthValid(d) || IsDayValid(d)
  }

  // ------------------------------------------------------------- comparisons

  /** operator==: both dates valid and the three fields equal (the keep day is ignored). */
  predicate Eq(d1: DateVal, d2: DateVal)
  {
    IsValid(d1) && IsValid(d2) && d1.year == d2.year && d1.month == d2.month && d1.day == d2.day
  }

  predicate Neq(d1: DateVal, d2: DateVal)
  {
    !Eq(d1, d2)
  }

  /**
   * operator>: field by field from the year down; a field valid on the left
   * and invalid on the right wins, a field invalid on the left is skipped.
   */
  function Gt(d1: DateVal, d2: DateVal): (r: bool)
    ensures r ==> IsValid(d1)
  {
    if IsYearValid(d1) && !IsYearValid(d2) then true
    else if IsYearValid(d1) && d1.year != d2.year then d1.year > d2.year
    else if IsMonthValid(d1) && !IsMonthValid(d2) then true
    else if IsMonthValid(d1) && d1.month != d2.month then d1.month > d2.month
    else if IsDayValid(d1) && !IsDayValid(d2) then true
    else if IsDayValid(d1) && d1.day != d2.day then d1.day > d2.day
    else false
  }

  /** operator<: not greater and not equal. */
  predicate Lt(d1: DateVal, d2: DateVal)
  {
    !Gt(d1, d2) && Neq(d1, d2)
  }

  /** An invalid date is unequal to itself, and so less than itself. */
  lemma SelfComparison(d: DateVal)
    ensures Eq(d, d) <==> IsValid(d)
    ensures !Gt(d, d)
    ensures Lt(d, d) <==> !IsValid(d)
  {
  }

  /** Equality is symmetric and transitive. */
  lemma EqSymmetricTransitive(a: DateVal, b: DateVal, c: DateVal)
    ensures Eq(a, b) ==> Eq(b, a)
    ensures Eq(a, b) && Eq(b, c) ==> Eq(a, c)
  {
  }

  predicate FullyValid(d: DateVal)
  {
    IsYearValid(d) && IsMonthValid(d) && IsDayValid(d)
  }

  /** Lexicographic order on (year, month, day). */
  predicate LexGreater(d1: DateVal, d2: DateVal)
  {
    d1.year > d2.year
    || (d1.year == d2.year && d1.month > d2.month)
    || (d1.year == d2.year && d1.month == d2.month && d1.day > d2.day)
  }

  /**
   * On dates whose three fields are all valid the comparisons are the
   * lexicographic order, and exactly one of <, ==, > holds.
   */
  lemma CompareFullyValid(d1: DateVal, d2: DateVal)
    requires FullyValid(d1) && FullyValid(d2)
    ensures Gt(d1, d2) <==> LexGreater(d1, d2)
    ensures Lt(d1, d2) <==> LexGreater(d2, d1)
    ensures Eq(d1, d2) <==> (d1.year == d2.year && d1.month == d2.month && d1.day == d2.day)
    ensures (Lt(d1, d2) && !Eq(d1, d2) && !Gt(d1, d2))
         || (!Lt(d1, d2) && Eq(d1, d2) && !Gt(d1, d2))
         || (!Lt(d1, d2) && !Eq(d1, d2) && Gt(d1, d2))
  {
    if Gt(d2, d1) {
      assert !Gt(d1, d2);
    }
  }

  /**
   * With partly valid dates `>` is not antisymmetric: a year-only date and
   * a month-only date are each greater than the other, and neither is less.
   */
  lemma GtBothWays()
    ensures Gt(YearOnly(2000), MonthOnly(5)) && Gt(MonthOnly(5), YearOnly(2000))
    ensures !Lt(YearOnly(2000), MonthOnly(5)) && !Lt(MonthOnly(5), YearOnly(2000))
  {
  }

  // --------------------------------------------------------- field rolling

  /** _rollMonth: one step of twelve months into or out of the year. */
  function RolledMonth(d: DateVal): (r: DateVal)
    ensures r.year * 12 + r.month == d.year * 12 + d.month
    ensures r.day == d.day && r.keepDay == d.keepDay
    ensures -11 <= d.month <= 24 ==> IsMonthValid(r)
    ensures IsMonthValid(d) ==> r == d
  {
    if d.month < 1 then d.(year := d.year - 1, month := d.month + 12)
    else if d.month > 12 then d.(year := d.year + 1, month := d.month - 12)
    else d
  }

  /** The quantity _rollDay shrinks on each recursion. */
  function DayMeasure(day: int): nat
  {
    if day < 1 then 1 - day else day
  }

  /**
   * One pass of _rollDay before its recursive call.  A day past the end
   * moves to the next month as day - daysInMonth (so 32 September becomes
   * 2 October); a day before the start moves to the previous month.
   */
  function RollDayStep(d: DateVal): (r: DateVal)
    ensures IsMonthValid(r) && r.keepDay == d.keepDay
    ensures !IsDayValid(r) ==> DayMeasure(r.day) < DayMeasure(d.day)
  {
    var d0 := if DaysInMonth(d, 0) < 1 then d.(month := 1) else d;
    var dim := DaysInMonth(d0, 0);
    if d0.day < 1 then
      var e := RolledMonth(d0.(month := d0.month - 1));
      e.(day := e.day + DaysInMonth(e, 0))
    else if d0.day > dim then
      var e := d0.(month := d0.month + 1, day := dim - d0.day);
      var dim2 := DaysInMonth(e, 0);
      var e1 := if e.day > dim2 then e.(day := dim2) else e;
      var e2 := if e1.day < 1 then e1.(day := -e1.day) else e1;
      RolledMonth(e2)
    else d0
  }

  /** _rollDay: repeat the pass until the day fits its month. */
  function RolledDay(d: DateVal): (r: DateVal)
    ensures IsMonthValid(r) && IsDayValid(r) && r.keepDay == d.keepDay
    decreases DayMeasure(d.day)
  {
    var e := RollDayStep(d);
    if IsDayValid(e) then e else RolledDay(e)
  }

  /** Rolling leaves a date whose month and day are already valid alone. */
  lemma RolledDayValid(d: DateVal)
    requires IsMonthValid(d) && IsDayValid(d)
    ensures RolledDay(d) == d
  {
    assert RollDayStep(d) == d;
  }

  /** A day up to one month past the end lands in the next month. */
  lemma RolledDayForward(d: DateVal)
    requires IsMonthValid(d)
    requires DaysInMonth(d, 0) < d.day <= DaysInMonth(d, 0) + 28
    ensures RolledDay(d).day == d.day - DaysInMonth(d, 0)
    ensures RolledDay(d).year * 12 + RolledDay(d).month == d.year * 12 + d.month + 1
  {
    var e := RollDayStep(d);
    assert e.day == d.day - DaysInMonth(d, 0);
    assert IsDayValid(e);
  }

  /** A day up to one month before the start lands in the previous month. */
  lemma RolledDayBackward(d: DateVal)
    requires IsMonthValid(d)
    requires 1 - 28 <= d.day < 1
    ensures RolledDay(d).year * 12 + RolledDay(d).month == d.year * 12 + d.month - 1
    ensures RolledDay(d).day == d.day + DaysInMonth(RolledDay(d), 0)
  {
    var e := RollDayStep(d);
    assert IsDayValid(e);
  }

  /** 32 September rolls to 2 October (not 1 October). */
  lemma ThirtySecondOfSeptember()
    ensures RolledDay(Make(1999, 9, 32)) == Make(1999, 10, 2)
  {
    RolledDayForward(Make(1999, 9, 32));
  }

  /**
   * With the as-written February, 29 February 2000 is not a day: rolling
   * moves it to 1 March, the day after 28 February 2000 is 1 March, and it
   * is not greater than 28 February.
   */
  lemma NoLeapDay()
    ensures RolledDay(Make(2000, 2, 29)) == Make(2000, 3, 1)
    ensures Sum(Make(2000, 2, 28), DayOnly(1)) == Make(2000, 3, 1)
    ensures !Gt(Make(2000, 2, 29), Make(2000, 2, 28))
  {
    RolledDayForward(Make(2000, 2, 29));
  }

  /**
   * _enforceKeepDay: with a keep day in 1..31 and a day that differs from
   * it, the day becomes the keep day clamped to the month's length.
   */
  function KeepDayEnforced(d: DateVal): (r: (DateVal, bool))
    ensures r.1 <==> IsKeepDaySet(d) && d.day != d.keepDay
    ensures !r.1 ==> r.0 == d
    ensures r.1 ==> r.0 == d.(day := Min(d.keepDay, DaysInMonth(d, 0)))
  {
    if d.keepDay < 1 || d.keepDay > 31 then (d, false)
    else if d.day != d.keepDay then
      var e := d.(day := d.keepDay);
      var dim := DaysInMonth(e, 0);
      (if e.day > dim then e.(day := dim) else e, true)
    else (d, false)
  }

  /** SetKeepDay(k). */
  function WithKeepDay(d: DateVal, k: int): (r: DateVal)
    ensures r.keepDay == k && r.year == d.year && r.month == d.month
    ensures 0 < k < 32 ==> r.day == if d.day == k then k else Min(k, DaysInMonth(d, 0))
    ensures !(0 < k < 32) ==> r.day == d.day
  {
    KeepDayEnforced(d.(keepDay := k)).0
  }

  // ------------------------------------------------------------ arithmetic

  /** operator<<: copy the fields that are valid in `o`, then the keep-day rule. */
  function Shifted(d: DateVal, o: DateVal): (r: DateVal)
    ensures r.year == (if IsYearValid(o) then o.year else d.year)
    ensures r.month == (if IsMonthValid(o) then o.month else d.month)
    ensures r.keepDay == d.keepDay
    ensures !IsKeepDaySet(d) ==> r.day == (if IsDayValid(o) then o.day else d.day)
  {
    var e1 := if IsYearValid(o) then d.(year := o.year) else d;
    var e2 := if IsMonthValid(o) then e1.(month := o.month) else e1;
    var e3 := if IsDayValid(o) then e2.(day := o.day) else e2;
    KeepDayEnforced(e3).0
  }

  /** The day part of +=: `k` days onto a valid day, or `k` as the day of an invalid one. */
  function AddDays(d: DateVal, k: int): DateVal
  {
    if !IsDayValid(d) then RolledDay(d.(day := k))
    else RolledMonth(RolledDay(d.(day := d.day + k)))
  }

  /** The day part of -=, applied to a valid day. */
  function SubtractDays(d: DateVal, k: int): DateVal
  {
    RolledMonth(RolledDay(d.(day := d.day - k)))
  }

  /**
   * The month tail shared by += and -=: store the new month, roll it, move
   * a day that was the old month's last to the new month's last, and clamp.
   */
  function ChangeMonth(d: DateVal, newMonth: int): (r: DateVal)
    ensures r.year * 12 + r.month == d.year * 12 + newMonth
    ensures r.keepDay == d.keepDay
  {
    var prev := DaysInMonth(d, 0);
    var e := RolledMonth(d.(month := newMonth));
    var e1 := if e.day == prev then e.(day := DaysInMonth(e, 0)) else e;
    if e1.day > DaysInMonth(e1, 0) then e1.(day := DaysInMonth(e1, 0)) else e1
  }

  /** operator+= and operator+: an invalid operand changes nothing. */
  function Sum(d: DateVal, o: DateVal): (r: DateVal)
    ensures !IsValid(o) ==> r == d
    ensures r.keepDay == d.keepDay
  {
    if !IsValid(o) then d
    else
      var d1 := if o.day > 0 then AddDays(d, o.day) else d;
      var d2 :=
        if !IsMonthValid(o) then d1
        else if !IsMonthValid(d1) then RolledMonth(d1.(month := o.month))
        else ChangeMonth(d1, d1.month + o.month);
      var d3 :=
        if !IsYearValid(o) then d2
        else if !IsYearValid(d2) then d2.(year := o.year)
        else d2.(year := d2.year + o.year);
      KeepDayEnforced(d3).0
  }

  /** operator-= and operator-: an invalid date or operand changes nothing. */
  function Difference(d: DateVal, o: DateVal): (r: DateVal)
    ensures !IsValid(d) || !IsValid(o) ==> r == d
    ensures r.keepDay == d.keepDay
  {
    if !IsValid(d) || !IsValid(o) then d
    else
      var d1 := if o.day > 0 && IsDayValid(d) then SubtractDays(d, o.day) else d;
      var d2 := if IsMonthValid(o) && IsMonthValid(d1) then ChangeMonth(d1, d1.month - o.month) else d1;
      var d3 := if IsYearValid(o) && IsYearValid(d2) then d2.(year := d2.year - o.year) else d2;
      KeepDayEnforced(d3).0
  }

  /**
   * Adding k months to a valid month: the month count advances by k, the
   * year and month stay valid, and the day is clamped to the new month,
   * except that the old month's last day becomes the new month's last.
   */
  lemma AddMonths(d: DateVal, k: int)
    requires IsMonthValid(d) && !IsKeepDaySet(d) && 1 <= k <= 12
    ensures var r := Sum(d, MonthOnly(k));
      && IsMonthValid(r)
      && r.year * 12 + r.month == d.year * 12 + d.month + k
      && r.day == (if d.day == DaysInMonth(d, 0) then DaysInMonth(r, 0) else Min(d.day, DaysInMonth(r, 0)))
  {
  }

  /** Subtracting k months from a valid date mirrors AddMonths. */
  lemma SubtractMonths(d: DateVal, k: int)
    requires IsMonthValid(d) && !IsKeepDaySet(d) && 1 <= k <= 12
    ensures var r := Difference(d, MonthOnly(k));
      && IsMonthValid(r)
      && r.year * 12 + r.month == d.year * 12 + d.month - k
      && r.day == (if d.day == DaysInMonth(d, 0) then DaysInMonth(r, 0) else Min(d.day, DaysInMonth(r, 0)))
  {
  }

  /** Adding years to a valid year changes only the year. */
  lemma AddYears(d: DateVal, y: int)
    requires IsYearValid(d) && !IsKeepDaySet(d) && y < INT64_MAX
    ensures Sum(d, YearOnly(y)) == d.(year := d.year + y)
  {
  }

  /** 31 January plus a month is the last of February; plus another is 31 March. */
  lemma EndOfJanuaryPlusMonths()
    ensures Sum(Make(1999, 1, 31), MonthOnly(1)) == Make(1999, 2, 28)
    ensures Sum(Sum(Make(1999, 1, 31), MonthOnly(1)), MonthOnly(1)) == Make(1999, 3, 31)
  {
    AddMonths(Make(1999, 1, 31), 1);
    AddMonths(Make(1999, 2, 28), 1);
  }

  /**
   * The left column of the keep-day table in Date.h, as the code computes
   * it: from 29 December 1999 without a keep day, February 2000 clamps the
   * 29th to its 28 days, and that last day then moves to the last day of
   * each following month.  (The table shows 29 February 2000.)
   */
  lemma MonthsWithoutKeepDay()
    ensures var d0 := Make(1999, 12, 29);
      var d1 := Sum(d0, MonthOnly(1));
      var d2 := Sum(d1, MonthOnly(1));
      var d3 := Sum(d2, MonthOnly(1));
      var d4 := Sum(d3, MonthOnly(1));
      && d1 == Make(2000, 1, 29)
      && d2 == Make(2000, 2, 28)
      && d3 == Make(2000, 3, 31)
      && d4 == Make(2000, 4, 30)
  {
    AddMonths(Make(1999, 12, 29), 1);
    AddMonths(Make(2000, 1, 29), 1);
    AddMonths(Make(2000, 2, 28), 1);
    AddMonths(Make(2000, 3, 31), 1);
  }

  /**
   * The right column, with keep day 29 set on 29 December 1999, as the code
   * computes it: February 2000 clamps to the 28th, and every later month
   * returns to the 29th.  (The table shows 29 February 2000.)
   */
  lemma KeepDayThroughMonths()
    ensures var d0 := WithKeepDay(Make(1999, 12, 29), 29);
      var d1 := Sum(d0, MonthOnly(1));
      var d2 := Sum(d1, MonthOnly(1));
      var d3 := Sum(d2, MonthOnly(1));
      var d4 := Sum(d3, MonthOnly(1));
      && d0 == DateVal(1999, 12, 29, 29)
      && d1 == DateVal(2000, 1, 29, 29)
      && d2 == DateVal(2000, 2, 28, 29)
      && d3 == DateVal(2000, 3, 29, 29)
      && d4 == DateVal(2000, 4, 29, 29)
  {
    var d0 := DateVal(1999, 12, 29, 29);
    assert WithKeepDay(Make(1999, 12, 29), 29) == d0;
    var d1 := DateVal(2000, 1, 29, 29);
    assert Sum(d0, MonthOnly(1)) == d1;
    var d2 := DateVal(2000, 2, 28, 29);
    assert Sum(d1, MonthOnly(1)) == d2;
    var d3 := DateVal(2000, 3, 29, 29);
    assert Sum(d2, MonthOnly(1)) == d3;
    assert Sum(d3, MonthOnly(1)) == DateVal(2000, 4, 29, 29);
  }

  // ------------------------------------------------------------------ class

  /** The C++ object, whose operators update its fields in place. */
  class EMDate {
    var year: int
    var month: int
    var day: int
    var keepDay: int

    function Value(): DateVal
      reads this
    {
      DateVal(year, month, day, keepDay)
    }

    constructor ()
      ensures Value() == Default()
    {
      year, month, day, keepDay := INT32_MAX, 0, 0, 0;
    }

    constructor Of(y: int, m: int, d: int)
      ensures Value() == Make(y, m, d)
    {
      year, month, day, keepDay := y, m, d, 0;
    }

    method RollMonth()
      modifies this
      ensures Value() == RolledMonth(old(Value()))
    {
      if month < 1 {
        year := year - 1;
        month := month + 12;
      } else if month > 12 {
        year := year + 1;
        month := month - 12;
      }
    }

    method RollDay()
      modifies this
      ensures Value() == RolledDay(old(Value()))
      decreases DayMeasure(day)
    {
      ghost var d := Value();
      var daysInMonth := DaysInMonth(Value(), 0);
      if daysInMonth < 1 {
        month := 1;
        daysInMonth := DaysInMonth(Value(), 0);
      }
      if day < 1 {
        month := month - 1;
        RollMonth();
        day := day + DaysInMonth(Value(), 0);
      } else if day > daysInMonth {
        month := month + 1;
        var rolled := daysInMonth - day;
        daysInMonth := DaysInMonth(Value(), 0);
        if rolled > daysInMonth {
          rolled := daysInMonth;
        }
        if rolled < 1 {
          rolled := -rolled;
        }
        day := rolled;
        RollMonth();
      }
      assert Value() == RollDayStep(d);
      if !IsDayValid(Value()) {
        RollDay();
      }
    }

    method EnforceKeepDay() returns (changed: bool)
      modifies this
      ensures (Value(), changed) == KeepDayEnforced(old(Value()))
    {
      if keepDay < 1 || keepDay > 31 {
        return false;
      }
      if day != keepDay {
        day := keepDay;
        var daysInMonth := DaysInMonth(Value(), 0);
        if day > daysInMonth {
          day := daysInMonth;
        }
        return true;
      }
      return false;
    }

    method SetKeepDay(k: int)
      modifies this
      ensures Value() == WithKeepDay(old(Value()), k)
    {
      keepDay := k;
      var changed := EnforceKeepDay();
    }

    /** operator<<; the operand is taken by value. */
    method Shift(o: DateVal)
      modifies this
      ensures Value() == Shifted(old(Value()), o)
    {
      if IsYearValid(o) {
        year := o.year;
      }
      if IsMonthValid(o) {
        month := o.month;
      }
      if IsDayValid(o) {
        day := o.day;
      }
      var changed := EnforceKeepDay();
    }

    /** operator+=; the operand is taken by value. */
    method AddAssign(o: DateVal)
      modifies this
      ensures Value() == Sum(old(Value()), o)
    {
      if !IsValid(o) {
        return;
      }
      if o.day > 0 {
        AddDaysInPlace(o.day);
      }
      if IsMonthValid(o) {
        if !IsMonthValid(Value()) {
          month := o.month;
          RollMonth();
        } else {
          MoveMonth(month + o.month);
        }
      }
      if IsYearValid(o) {
        if !IsYearValid(Value()) {
          year := o.year;
        } else {
          year := year + o.year;
        }
      }
      var changed := EnforceKeepDay();
    }

    /** operator-=; the operand is taken by value. */
    method SubAssign(o: DateVal)
      modifies this
      ensures Value() == Difference(old(Value()), o)
    {
      if !IsValid(Value()) || !IsValid(o) {
        return;
      }
      if o.day > 0 {
        if IsDayValid(Value()) {
          SubtractDaysInPlace(o.day);
        }
      }
      if IsMonthValid(o) {
        if IsMonthValid(Value()) {
          MoveMonth(month - o.month);
        }
      }
      if IsYearValid(o) {
        if IsYearValid(Value()) {
          year := year - o.year;
        }
      }
      var changed := EnforceKeepDay();
    }

    /** The day step of operator+=. */
    method AddDaysInPlace(k: int)
      modifies this
      ensures Value() == AddDays(old(Value()), k)
    {
      if !IsDayValid(Value()) {
        day := k;
        RollDay();
      } else {
        day := day + k;
        RollDay();
        RollMonth();
      }
    }

    /** The day step of operator-=. */
    method SubtractDaysInPlace(k: int)
      modifies this
      ensures Value() == SubtractDays(old(Value()), k)
    {
      day := day - k;
      RollDay();
      RollMonth();
    }

    /** The month step shared by operator+= and operator-=. */
    method MoveMonth(newMonth: int)
      modifies this
      ensures Value() == ChangeMonth(old(Value()), newMonth)
    {
      var daysInPrevMonth := DaysInMonth(Value(), 0);
      month := newMonth;
      RollMonth();
      if day == daysInPrevMonth {
        day := DaysInMonth(Value(), 0);
      }
      if day > DaysInMonth(Value(), 0) {
        day := DaysInMonth(Value(), 0);
      }
    }
  }
}
