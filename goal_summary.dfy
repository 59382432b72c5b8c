/**
 * The due-date label of components/dashboard/GoalSummary.tsx (formatDate).
 *
 * The whole-day difference between the due date and now, and the
 * calendar text toLocaleDateString produces, are inputs: both come from
 * Date arithmetic and locale formatting outside this model.
 */
module GoalSummary {

  function DigitChar(d: nat): (c: char)
    requires d < 10
    ensures '0' <= c <= '9' && c as int - '0' as int == d
  {
    ('0' as int + d) as char
  }

  /** The number a string of decimal digits denotes, most significant digit first. */
  function DigitsValue(s: string): nat
    requires forall i :: 0 <= i < |s| ==> '0' <= s[i] <= '9'
    decreases |s|
  {
    if s == [] then 0 else DigitsValue(s[..|s| - 1]) * 10 + (s[|s| - 1] as int - '0' as int)
  }

  /** The decimal numeral JavaScript's template literal writes for a natural number. */
  function Decimal(n: nat): (s: string)
    ensures |s| > 0
    ensures forall i :: 0 <= i < |s| ==> '0' <= s[i] <= '9'
    ensures DigitsValue(s) == n
    ensures n < 10 <==> |s| == 1
    ensures |s| > 1 ==> s[0] != '0'
    decreases n
  {
    if n < 10 then
      var s := [DigitChar(n)];
      assert s[..|s| - 1] == [];
      s
    else
      var prefix := Decimal(n / 10);
      var s := prefix + [DigitChar(n % 10)];
      assert s[..|s| - 1] == prefix;
      s
  }

  const DaysLeftSuffix: string := " days left"

  /** formatDate once daysDiff is known: the checks apply in the order written. */
  function FormatDate(daysDiff: int, calendarDate: string): (text: string)
    ensures daysDiff == 0 ==> text == "Today"
    ensures daysDiff == 1 ==> text == "Tomorrow"
    ensures daysDiff < 0 ==> text == "Overdue"
    ensures 2 <= daysDiff < 7 ==> text == [DigitChar(daysDiff)] + DaysLeftSuffix
    ensures daysDiff >= 7 ==> text == calendarDate
  {
    if daysDiff == 0 then "Today"
    else if daysDiff == 1 then "Tomorrow"
    else if daysDiff < 0 then "Overdue"
    else if daysDiff < 7 then Decimal(daysDiff) + DaysLeftSuffix
    else calendarDate
  }

  /**
   * Below a week, the label determines the class: two day differences that
   * are not both overdue give different labels.
   */
  lemma ShortLabelsDistinct(d1: int, d2: int, calendarDate: string)
    requires d1 < 7 && d2 < 7
    requires FormatDate(d1, calendarDate) == FormatDate(d2, calendarDate)
    ensures d1 == d2 || (d1 < 0 && d2 < 0)
  {
    if 2 <= d1 && 2 <= d2 {
      assert FormatDate(d1, calendarDate)[0] == FormatDate(d2, calendarDate)[0];
    }
  }
}
