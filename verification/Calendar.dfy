/** Days since 1970-01-01, the proleptic Gregorian year (section 21.4.1 of ECMA-262), and the ISO 8601 week. */
module Calendar {

  // -------------------------------------------------------------- the year

  /** First day of year `y`. */
  function YearStart(y: int): int {
    365 * (y - 1970) + (y - 1969) / 4 - (y - 1901) / 100 + (y - 1601) / 400
  }

  lemma Fourths(x: int)
    ensures (x + 1) / 4 - x / 4 == if (x + 1) % 4 == 0 then 1 else 0
  {
  }

  lemma Hundredths(x: int)
    ensures (x + 1) / 100 - x / 100 == if (x + 1) % 100 == 0 then 1 else 0
  {
  }

  lemma FourHundredths(x: int)
    ensures (x + 1) / 400 - x / 400 == if (x + 1) % 400 == 0 then 1 else 0
  {
  }

  lemma MultipleOf4(k: int)
    ensures (4 * k) % 4 == 0
  {
  }

  lemma MultipleOf100(k: int)
    ensures (100 * k) % 100 == 0
  {
  }

  /** A century is a leap candidate. */
  lemma CenturyIsFourth(y: int)
    requires (y - 1900) % 100 == 0
    ensures (y - 1968) % 4 == 0
  {
    var q := (y - 1900) / 100;
    assert y - 1900 == 100 * q;
    MultipleOf4(25 * q - 17);
  }

  /** Every fourth century is a century. */
  lemma FourthCenturyIsCentury(y: int)
    requires (y - 1600) % 400 == 0
    ensures (y - 1900) % 100 == 0
  {
    var c := (y - 1600) / 400;
    assert y - 1600 == 400 * c;
    MultipleOf100(4 * c - 3);
  }

  predicate LeapYear(y: int) { y % 4 == 0 && (y % 100 != 0 || y % 400 == 0) }

  /** The year-start formula is zero at 1970 and has exactly the Gregorian leap years. */
  lemma LeapCycle(y: int)
    ensures YearStart(1970) == 0
    ensures YearStart(y + 1) - YearStart(y) == if LeapYear(y) then 366 else 365
  {
    assert (y - 1968) % 4 == y % 4 && (y - 1900) % 100 == y % 100 && (y - 1600) % 400 == y % 400;
    Fourths(y - 1969);
    Hundredths(y - 1901);
    FourHundredths(y - 1601);
    if (y - 1900) % 100 == 0 { CenturyIsFourth(y); }
    if (y - 1600) % 400 == 0 { FourthCenturyIsCentury(y); }
  }

  function YearUp(d: int, y: int): (r: int)
    requires YearStart(y) <= d
    ensures YearStart(r) <= d < YearStart(r + 1)
    decreases d - YearStart(y)
  {
    LeapCycle(y);
    if d < YearStart(y + 1) then y else YearUp(d, y + 1)
  }

  function YearDown(d: int, y: int): (r: int)
    requires d < YearStart(y)
    ensures YearStart(r) <= d < YearStart(r + 1)
    decreases YearStart(y) - d
  {
    LeapCycle(y - 1);
    if YearStart(y - 1) <= d then y - 1 else YearDown(d, y - 1)
  }

  /** The calendar year containing day `d`. */
  function YearOf(d: int): (y: int)
    ensures YearStart(y) <= d < YearStart(y + 1)
  {
    if d >= YearStart(1970) then YearUp(d, 1970) else YearDown(d, 1970)
  }

  lemma {:induction false} YearStartGrows(y: int, z: int)
    requires y <= z
    ensures YearStart(z) - YearStart(y) >= 365 * (z - y)
    decreases z - y
  {
    if y < z {
      YearStartGrows(y, z - 1);
      LeapCycle(z - 1);
    }
  }

  lemma YearOfUnique(d: int, y: int)
    requires YearStart(y) <= d < YearStart(y + 1)
    ensures YearOf(d) == y
  {
    var r := YearOf(d);
    if r < y { YearStartGrows(r + 1, y); }
    if r > y { YearStartGrows(y + 1, r); }
  }

  // -------------------------------------------------------------- the week

  /** 0 is Sunday; 1970-01-01 was a Thursday. */
  function Weekday(d: int): int { (d + 4) % 7 }

  function MondayOf(d: int): (m: int)
    ensures m <= d < m + 7 && Weekday(m) == 1
  {
    d - (d + 3) % 7
  }

  /** The Thursday of the Monday-to-Sunday week of `d`. */
  function ThursdayOf(d: int): (t: int)
    ensures Weekday(t) == 4
  {
    MondayOf(d) + 3
  }

  function CountThursdays(a: int, b: int): nat
    decreases b - a
  {
    if b <= a then 0 else CountThursdays(a, b - 1) + if Weekday(b - 1) == 4 then 1 else 0
  }

  datatype Week = Week(year: int, week: int)

  /**
   Section 2.2.10 of ISO 8601:2004: week 1 of a year is the one with the year's first Thursday.
   So a week belongs to the year of its Thursday and is numbered by that year's Thursdays so far.
  */
  function IsoWeekOf(d: int): Week {
    var y := YearOf(ThursdayOf(d));
    Week(y, CountThursdays(YearStart(y), ThursdayOf(d) + 1))
  }

  lemma {:induction false} CountedThursdays(a: int, t: int)
    requires a <= t && Weekday(t) == 4
    ensures CountThursdays(a, t + 1) == (t - a) / 7 + 1
    decreases t - a
  {
    NoThursdayBetween(if t - 7 < a then a else t - 6, t);
    if t - 7 >= a {
      CountedThursdays(a, t - 7);
      CountSplit(a, t - 6, t);
    }
  }

  lemma {:induction false} NoThursdayBetween(a: int, t: int)
    requires a <= t <= a + 6 && Weekday(t) == 4
    ensures forall b :: a <= b <= t ==> CountThursdays(a, b) == 0
  {
    var b := a;
    while b < t
      invariant a <= b <= t
      invariant forall k :: a <= k <= b ==> CountThursdays(a, k) == 0
    {
      assert Weekday(b) != 4;
      b := b + 1;
    }
  }

  lemma {:induction false} CountSplit(a: int, m: int, b: int)
    requires a <= m <= b
    ensures CountThursdays(a, b) == CountThursdays(a, m) + CountThursdays(m, b)
    decreases b - m
  {
    if m < b { CountSplit(a, m, b - 1); }
  }

  /** The number, in year `y`, of the week whose Thursday is `t`. */
  function NumberIn(y: int, t: int): int { (t - YearStart(y)) / 7 + 1 }

  function LabelOf(t: int): Week { Week(YearOf(t), NumberIn(YearOf(t), t)) }

  lemma WeekNumber(d: int)
    ensures IsoWeekOf(d) == LabelOf(ThursdayOf(d))
  {
    CountedThursdays(YearStart(YearOf(ThursdayOf(d))), ThursdayOf(d));
  }

  /** `Date.UTC` adds 1900 to the years it reads as two digits (section 21.4.3.4 of ECMA-262). */
  predicate TwoDigits(y: int) { 0 <= y <= 99 }

  /** The day `Date.UTC` gives for the date of day `d`; the 29 February of year 0 turns into 1 March 1900. */
  function DateUtc(d: int): int {
    var y := YearOf(d);
    if TwoDigits(y) then
      var k := d - YearStart(y);
      YearStart(y + 1900) + if y == 0 && k > 59 then k - 1 else k
    else d
  }

  /** The day `Date.UTC` gives for 1 January. */
  function FirstOfYear(y: int): int { YearStart(if TwoDigits(y) then y + 1900 else y) }

  /** What `isoWeek` answers: that of the shifted date, with the weeks rounded up. */
  function LabelGiven(d: int): Week {
    var t := ThursdayOf(DateUtc(d));
    Week(YearOf(t), WeeksBegun(FirstOfYear(YearOf(t)), t))
  }

  /** Days from `first` to the end of `t` in weeks, rounded up as by `Math.ceil`. */
  function WeeksBegun(first: int, t: int): int { (t - first + 1 + 6) / 7 }

  /** 1 for Monday to 7 for Sunday. */
  function DayNumber(d: int): int { if Weekday(d) == 0 then 7 else Weekday(d) }

  lemma ShiftToThursday(d: int)
    ensures d + 4 - DayNumber(d) == ThursdayOf(d)
  {
  }

  /** `isoWeek`: shift to the week's Thursday, then round up the weeks since that year began. */
  method IsoWeek(d: int) returns (w: Week)
    ensures w == LabelGiven(d)
  {
    var date := DateUtc(d);
    ShiftToThursday(date);
    date := date + 4 - DayNumber(date);
    w := Week(YearOf(date), WeeksBegun(FirstOfYear(YearOf(date)), date));
  }

  lemma DateUtcIsLater(d: int)
    requires TwoDigits(YearOf(d))
    ensures YearOf(DateUtc(d)) >= 1900
  {
    var y := YearOf(d);
    YearStartGrows(1900, y + 1900);
    YearIsAtLeast(DateUtc(d), 1900);
  }

  lemma YearIsAtLeast(d: int, y: int)
    requires YearStart(y) <= d
    ensures YearOf(d) >= y
  {
    if YearOf(d) < y { YearStartGrows(YearOf(d) + 1, y); }
  }

  lemma YearIsAtMost(d: int, y: int)
    requires d < YearStart(y + 1)
    ensures YearOf(d) <= y
  {
    if YearOf(d) > y { YearStartGrows(y + 1, YearOf(d)); }
  }

  /** A week's Thursday is in the year of any of its days, or in the year beside it. */
  lemma ThursdayYear(d: int)
    ensures YearOf(d) - 1 <= YearOf(ThursdayOf(d)) <= YearOf(d) + 1
  {
    var y := YearOf(d);
    LeapCycle(y - 1);
    LeapCycle(y + 1);
    YearIsAtLeast(ThursdayOf(d), y - 1);
    YearIsAtMost(ThursdayOf(d), y + 1);
  }

  /** The label is that of ISO 8601 exactly when neither the date nor its week's Thursday is in the years 0 to 99. */
  lemma LabelIsIsoIff(d: int)
    ensures LabelGiven(d) == IsoWeekOf(d) <==> !TwoDigits(YearOf(d)) && !TwoDigits(YearOf(ThursdayOf(d)))
  {
    var t := ThursdayOf(d);
    WeekNumber(d);
    ThursdayYear(d);
    if TwoDigits(YearOf(d)) {
      DateUtcIsLater(d);
      ThursdayYear(DateUtc(d));
    } else if TwoDigits(YearOf(t)) {
      YearStartGrows(YearOf(t) + 1, YearOf(t) + 1900);
    }
  }

  lemma DateSince1970(d: int)
    requires d >= 0
    ensures YearOf(d) >= 1970 && DateUtc(d) == d
  {
    assert YearStart(1970) == 0;
    YearIsAtLeast(d, 1970);
  }

  /** Since 1970 dates and labels are right. */
  lemma LabelSince1970(d: int)
    requires d >= 0
    ensures DateUtc(d) == d && LabelGiven(d) == IsoWeekOf(d)
  {
    DateSince1970(d);
    ThursdayYear(d);
    LabelIsIsoIff(d);
  }

  predicate Earlier(a: Week, b: Week) { a.year < b.year || (a.year == b.year && a.week < b.week) }

  lemma WeekInRange(d: int)
    ensures 1 <= IsoWeekOf(d).week <= 53
  {
    WeekNumber(d);
    LeapCycle(IsoWeekOf(d).year);
  }

  /** Later weeks get later labels. */
  lemma WeeksAreOrdered(a: int, b: int)
    requires MondayOf(a) < MondayOf(b)
    ensures Earlier(IsoWeekOf(a), IsoWeekOf(b))
  {
    WeekNumber(a);
    WeekNumber(b);
    var s, t := ThursdayOf(a), ThursdayOf(b);
    assert t - s >= 7 by { WholeWeeks(MondayOf(a), MondayOf(b)); }
    var y, z := YearOf(s), YearOf(t);
    if z < y { YearStartGrows(z + 1, y); }
    if y == z { assert (t - YearStart(y)) / 7 >= (s + 7 - YearStart(y)) / 7; }
  }

  lemma WholeWeeks(m: int, n: int)
    requires Weekday(m) == Weekday(n) && m < n
    ensures n - m >= 7
  {
  }

  /** Two days share a label exactly when they share a Monday-to-Sunday week. */
  lemma SameWeekIff(a: int, b: int)
    ensures IsoWeekOf(a) == IsoWeekOf(b) <==> MondayOf(a) == MondayOf(b)
  {
    if MondayOf(a) < MondayOf(b) { WeeksAreOrdered(a, b); }
    if MondayOf(b) < MondayOf(a) { WeeksAreOrdered(b, a); }
  }

  /** The following week carries the next number, or is week 1 of the next year. */
  lemma NextWeek(d: int)
    ensures var w, n := IsoWeekOf(d), IsoWeekOf(d + 7);
      n == Week(w.year, w.week + 1) || (n == Week(w.year + 1, 1) && w.week >= 52)
  {
    var t := ThursdayOf(d);
    assert ThursdayOf(d + 7) == t + 7 by { NextThursday(d); }
    WeekAfter(t, YearOf(t));
    WeekNumber(d);
    WeekNumber(d + 7);
  }

  lemma NextThursday(d: int)
    ensures ThursdayOf(d + 7) == ThursdayOf(d) + 7
  {
  }

  lemma WeekAfter(t: int, y: int)
    requires YearStart(y) <= t < YearStart(y + 1)
    ensures var w, n := LabelOf(t), LabelOf(t + 7);
      n == Week(w.year, w.week + 1) || (n == Week(w.year + 1, 1) && w.week >= 52)
  {
    YearAfter(t, y);
    LeapCycle(y);
    WeekSteps(t, YearStart(y), YearStart(y + 1));
  }

  lemma YearAfter(t: int, y: int)
    requires YearStart(y) <= t < YearStart(y + 1)
    ensures YearOf(t) == y && YearOf(t + 7) == if t + 7 < YearStart(y + 1) then y else y + 1
  {
    LeapCycle(y + 1);
    YearOfUnique(t, y);
    YearOfUnique(t + 7, if t + 7 < YearStart(y + 1) then y else y + 1);
  }

  lemma WeekSteps(t: int, a: int, b: int)
    requires a <= t < b && 365 <= b - a
    ensures (t + 7 - a) / 7 == (t - a) / 7 + 1
    ensures t + 7 >= b ==> (t + 7 - b) / 7 == 0 && (t - a) / 7 >= 51
  {
  }

  /** 4 January always lies in week 1 of its own year. */
  lemma FourthOfJanuary(y: int)
    ensures IsoWeekOf(YearStart(y) + 3) == Week(y, 1)
  {
    var d := YearStart(y) + 3;
    WeekNumber(d);
    LeapCycle(y);
    YearOfUnique(ThursdayOf(d), y);
  }
}
