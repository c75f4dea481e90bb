/**
 * src/screens/onboarding/AgeCheckStep.tsx: the birth date is picked from
 * year, month and day wheels; users of 14 or over go on, and their birth
 * date is stored as YYYY-MM-DD.
 */
module AgeCheck {
  import Text

  const StartYear := 1950
  const MinimumAge := 14

  /** A calendar date; `month` is 1-based. */
  datatype Date = Date(year: int, month: int, day: int)

  /** The year wheel of line 82: the current year down to 1950. */
  function Years(currentYear: int): (r: seq<int>)
    ensures |r| == if currentYear >= StartYear then currentYear - StartYear + 1 else 0
    ensures forall k :: 0 <= k < |r| ==> r[k] == currentYear - k
  {
    var n := if currentYear >= StartYear then currentYear - StartYear + 1 else 0;
    seq(n, k requires 0 <= k < n => currentYear - k)
  }

  lemma YearsSpec(currentYear: int)
    requires currentYear >= StartYear
    ensures Years(currentYear)[0] == currentYear && Years(currentYear)[|Years(currentYear)| - 1] == StartYear
    ensures forall y :: y in Years(currentYear) <==> StartYear <= y <= currentYear
  {
    var r := Years(currentYear);
    forall y | StartYear <= y <= currentYear
      ensures y in r
    {
      assert r[currentYear - y] == y;
    }
  }

  predicate IsLeapYear(year: int)
  {
    (year % 4 == 0 && year % 100 != 0) || year % 400 == 0
  }

  /** `new Date(year, month, 0).getDate()` (line 85): the last day of the month. */
  function DaysInMonth(year: int, month: int): (d: int)
    requires 1 <= month <= 12
    ensures 28 <= d <= 31
  {
    if month == 2 then (if IsLeapYear(year) then 29 else 28)
    else if month == 4 || month == 6 || month == 9 || month == 11 then 30
    else 31
  }

  /** The effect of lines 89-91: a day past the month's end falls back to its last day. */
  function ClampDay(day: int, daysInMonth: int): (r: int)
    ensures r <= daysInMonth && (day <= daysInMonth ==> r == day)
  {
    if day > daysInMonth then daysInMonth else day
  }

  /** Lines 94-100: whole years between the two dates, one less before this year's birthday. */
  function Age(today: Date, birth: Date): int
  {
    var age := today.year - birth.year;
    var m := today.month - birth.month;
    if m < 0 || (m == 0 && today.day < birth.day) then age - 1 else age
  }

  /** Lexicographic order on dates. */
  predicate OnOrBefore(a: Date, b: Date)
  {
    a.year < b.year || (a.year == b.year && (a.month < b.month || (a.month == b.month && a.day <= b.day)))
  }

  /** Line 102: accepted exactly when born on or before the same day 14 years ago. */
  lemma AcceptedIffOldEnough(today: Date, birth: Date)
    ensures Age(today, birth) >= MinimumAge <==> OnOrBefore(birth, Date(today.year - MinimumAge, today.month, today.day))
  {
  }

  /** The age goes up by one on the birthday and is the same the day before. */
  lemma AgeOnBirthday(birth: Date, n: int)
    ensures Age(Date(birth.year + n, birth.month, birth.day), birth) == n
    ensures birth.day > 1 ==> Age(Date(birth.year + n, birth.month, birth.day - 1), birth) == n - 1
  {
  }

  /** The stored text of line 104. */
  function FormatBirthDate(year: nat, month: nat, day: nat): string
  {
    Text.NatToString(year) + "-" + Text.Pad2(month) + "-" + Text.Pad2(day)
  }

  /**
   * For a four-digit year the text is ten characters, dashes at 4 and 7,
   * and each part reads back as the year, month and day.
   */
  lemma FormatBirthDateRoundTrip(year: nat, month: nat, day: nat)
    requires 1000 <= year <= 9999 && 1 <= month <= 12 && 1 <= day <= 31
    ensures var s := FormatBirthDate(year, month, day);
            |s| == 10 && s[4] == '-' && s[7] == '-'
            && (forall i :: 0 <= i < 10 && i != 4 && i != 7 ==> Text.IsDigit(s[i]))
            && Text.DigitsValue(s[..4]) == year && Text.DigitsValue(s[5..7]) == month && Text.DigitsValue(s[8..]) == day
  {
    var y := Text.NatToString(year);
    YearDigits(year);
    Text.DigitsValueOfNat(year);
    Text.Pad2Value(month);
    Text.Pad2Value(day);
    var s := FormatBirthDate(year, month, day);
    assert s[..4] == y && s[5..7] == Text.Pad2(month) && s[8..] == Text.Pad2(day);
  }

  lemma YearDigits(year: nat)
    requires 1000 <= year <= 9999
    ensures |Text.NatToString(year)| == 4
  {
    assert Text.NatToString(year) == Text.NatToString(year / 10) + [Text.DigitChar(year % 10)];
    assert |Text.NatToString(year / 10)| == 3 by {
      assert Text.NatToString(year / 10) == Text.NatToString(year / 100) + [Text.DigitChar((year / 10) % 10)];
    }
  }

  /** The outcome of handleNext (lines 93-110). */
  datatype Outcome = Stored(birthDate: string) | Underage

  /** The picker state; `today` comes from the clock. */
  class AgeCheckState {
    var year: int
    var month: int
    var day: int
    var underageError: bool

    /** The defaults of lines 72-77: 2000-01-01. */
    constructor()
      ensures year == 2000 && month == 1 && day == 1 && !underageError
    {
      year := 2000;
      month := 1;
      day := 1;
      underageError := false;
    }

    predicate Valid()
      reads this
    {
      StartYear <= year && 1 <= month <= 12 && 1 <= day <= DaysInMonth(year, month)
    }

    /** A month or year change, followed by the clamping effect of lines 89-91. */
    method Pick(newYear: int, newMonth: int)
      requires StartYear <= newYear && 1 <= newMonth <= 12 && day >= 1
      modifies this
      ensures year == newYear && month == newMonth && day == ClampDay(old(day), DaysInMonth(newYear, newMonth))
      ensures underageError == old(underageError)
      ensures Valid()
    {
      year := newYear;
      month := newMonth;
      var daysInMonth := DaysInMonth(year, month);
      if day > daysInMonth {
        day := daysInMonth;
      }
    }

    method HandleNext(today: Date) returns (outcome: Outcome)
      requires Valid()
      modifies this
      ensures year == old(year) && month == old(month) && day == old(day) && Valid()
      ensures Age(today, Date(year, month, day)) >= MinimumAge ==>
                outcome == Stored(FormatBirthDate(year, month, day)) && underageError == old(underageError)
      ensures Age(today, Date(year, month, day)) < MinimumAge ==> outcome == Underage && underageError
    {
      var age := today.year - year;
      var m := today.month - month;
      if m < 0 || (m == 0 && today.day < day) {
        age := age - 1;
      }
      if age >= MinimumAge {
        return Stored(FormatBirthDate(year, month, day));
      }
      underageError := true;
      return Underage;
    }
  }
}
