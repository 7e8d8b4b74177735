/** Whether a part fits a vehicle of which not everything is known: a verdict stands for every vehicle
the facts leave possible. */
module Fitment {
  import opened Options

  datatype Verdict = Supported | Rejected | Unknown

  // ----- Dates

  datatype Date = Date(year: int, month: int, day: int)

  function DaysIn(year: int, month: int): int {
    if month in {4, 6, 9, 11} then 30
    else if month != 2 then 31
    else if year % 4 == 0 && (year % 100 != 0 || year % 400 == 0) then 29
    else 28
  }

  predicate Exists(d: Date) {
    1 <= d.year <= 9999 && 1 <= d.month <= 12 && 1 <= d.day <= DaysIn(d.year, d.month)
  }

  function Rank(d: Date): int {
    (d.year * 12 + d.month) * 32 + d.day
  }

  // ----- The calendar, counted in days

  /** The days before January of a year, counted from the first of January of the year 1. */
  function DaysBeforeYear(year: int): int {
    365 * (year - 1) + (year - 1) / 4 - (year - 1) / 100 + (year - 1) / 400
  }

  /** The number of a date: one for each day since the year 1. */
  function DayNumber(d: Date): int {
    var yearLength := DaysBeforeYear(d.year + 1) - DaysBeforeYear(d.year);
    DaysBeforeYear(d.year) + (367 * d.month - 362) / 12 + (if d.month <= 2 then 0 else yearLength - 367) + d.day
  }

  function NextMonth(d: Date): Date {
    if d.month == 12 then Date(d.year + 1, 1, 1) else Date(d.year, d.month + 1, 1)
  }

  /** A year has 365 days, and 366 exactly in a leap year; four centuries have 146097, and the first day of
      1970 is the 719163rd. */
  lemma YearLengths(year: int)
    ensures DaysBeforeYear(year + 1) - DaysBeforeYear(year)
         == if year % 4 == 0 && (year % 100 != 0 || year % 400 == 0) then 366 else 365
    ensures DaysBeforeYear(year + 400) - DaysBeforeYear(year) == 146097
    ensures DayNumber(Date(1970, 1, 1)) == 719163 && DayNumber(Date(1, 1, 1)) == 1
  {
    FourYears(year);
    HundredYears(year);
    CenturyLength(year);
  }

  lemma FourYears(year: int)
    ensures year / 4 - (year - 1) / 4 == if year % 4 == 0 then 1 else 0
  {
  }

  lemma HundredYears(year: int)
    ensures year / 100 - (year - 1) / 100 == if year % 100 == 0 then 1 else 0
    ensures year / 400 - (year - 1) / 400 == if year % 400 == 0 then 1 else 0
    ensures year % 400 == 0 ==> year % 100 == 0
    ensures year % 100 == 0 ==> year % 4 == 0
  {
    assert year == year / 400 * 400 + year % 400;
    assert year == year / 100 * 100 + year % 100;
  }

  lemma CenturyLength(year: int)
    ensures DaysBeforeYear(year + 400) - DaysBeforeYear(year) == 146097
  {
    assert (year + 399) / 4 == (year - 1) / 4 + 100;
    assert (year + 399) / 100 == (year - 1) / 100 + 4;
    assert (year + 399) / 400 == (year - 1) / 400 + 1;
  }

  /** The day after the last day of a month is the first of the next one. */
  lemma MonthLengths(year: int, month: int)
    requires 1 <= month <= 12
    ensures DayNumber(Date(year, month, DaysIn(year, month))) + 1 == DayNumber(NextMonth(Date(year, month, 1)))
  {
    hide DaysBeforeYear;
    YearLengths(year);
  }

  /** What a text says of a date: a month, a day, or nothing that can be read. */
  datatype DateText = Unreadable | Month(year: int, month: int) | Day(date: Date)

  datatype Interval = Interval(first: Date, last: Date)

  function DateInterval(text: DateText): Option<Interval> {
    match text
    case Unreadable => None
    case Month(year, month) =>
      if Exists(Date(year, month, 1)) then Some(Interval(Date(year, month, 1), Date(year, month, DaysIn(year, month)))) else None
    case Day(date) => if Exists(date) then Some(Interval(date, date)) else None
  }

  datatype Range<T> = Range(from: Option<T>, to: Option<T>)

  function BoundInterval(bound: Option<DateText>): Option<Interval> {
    if bound.Some? then DateInterval(bound.value) else None
  }

  function DateRangeCriterion(expected: Range<DateText>, actual: DateText): Verdict {
    var observed := DateInterval(actual);
    var lower, upper := BoundInterval(expected.from), BoundInterval(expected.to);
    if observed.None? || (expected.from.Some? && lower.None?) || (expected.to.Some? && upper.None?) then Unknown
    else if lower.Some? && upper.Some? && Rank(lower.value.first) > Rank(upper.value.last) then Unknown
    else if (lower.Some? && Rank(observed.value.last) < Rank(lower.value.first))
         || (upper.Some? && Rank(observed.value.first) > Rank(upper.value.last)) then Rejected
    else if (lower.Some? && Rank(observed.value.first) < Rank(lower.value.first))
         || (upper.Some? && Rank(observed.value.last) > Rank(upper.value.last)) then Unknown
    else Supported
  }

  // ----- Numbers

  function RangeCriterion(expected: Range<Option<real>>, actual: Option<real>, isYear: bool): Verdict {
    if expected.from.None? && expected.to.None? then Unknown
    else if actual.None? || expected.from == Some(None) || expected.to == Some(None) then Unknown
    else if expected.from.Some? && expected.to.Some? && expected.from.value.value > expected.to.value.value then Unknown
    else if isYear && (!IsYear(actual.value) || (expected.from.Some? && !IsYear(expected.from.value.value))
                       || (expected.to.Some? && !IsYear(expected.to.value.value))) then Unknown
    else if (expected.from.Some? && actual.value < expected.from.value.value)
         || (expected.to.Some? && actual.value > expected.to.value.value) then Rejected
    else Supported
  }

  predicate IsYear(x: real) {
    x == x.Floor as real && x >= 1900.0
  }

  // ----- What is required and what is known

  datatype Requirement =
    | Blank                                            // nothing given, or no range at all
    | Dates(range: Range<DateText>)
    | OnDate(text: DateText)                           // one date that is not given as a range
    | Numbers(bounds: Range<Option<real>>, isYear: bool)
    | AnyOf(alternatives: seq<Requirement>)

  datatype Fact = Nothing | DateFact(text: DateText) | NumberFact(value: Option<real>)

  function Criterion(expected: Requirement, actual: Fact): Verdict
    decreases expected
  {
    if actual.Nothing? then Unknown
    else
      match expected
      case Blank => Unknown
      case AnyOf(alternatives) =>
        if alternatives == [] then Unknown
        else if exists i | 0 <= i < |alternatives| :: Criterion(alternatives[i], actual) == Supported then Supported
        else if exists i | 0 <= i < |alternatives| :: Criterion(alternatives[i], actual) == Unknown then Unknown
        else Rejected
      case Dates(range) =>
        if actual.DateFact? && (range.from.Some? || range.to.Some?) then DateRangeCriterion(range, actual.text) else Unknown
      case OnDate(text) =>
        if actual.DateFact? then DateRangeCriterion(Range(Some(text), Some(text)), actual.text) else Unknown
      case Numbers(bounds, isYear) => if actual.NumberFact? then RangeCriterion(bounds, actual.value, isYear) else Unknown
  }

  // ----- What a verdict means

  /** The exact value behind a fact. */
  datatype Truth = OnDay(date: Date) | Amount(value: real)

  /** The truth is one the fact leaves possible: any day of a month, anything where nothing is known. */
  predicate Completes(truth: Truth, fact: Fact) {
    match fact
    case Nothing => true
    case NumberFact(value) => truth.Amount? && (value.Some? ==> truth.value == value.value)
    case DateFact(text) => truth.OnDay? && CompletesDate(truth.date, text)
  }

  predicate CompletesDate(date: Date, text: DateText) {
    && Exists(date)
    && match text
       case Unreadable => true
       case Month(year, month) => date.year == year && date.month == month
       case Day(d) => date == d
  }

  predicate FitsDates(range: Range<DateText>, date: Date) {
    && (BoundInterval(range.from).Some? ==> Rank(BoundInterval(range.from).value.first) <= Rank(date))
    && (BoundInterval(range.to).Some? ==> Rank(date) <= Rank(BoundInterval(range.to).value.last))
  }

  predicate Fits(expected: Requirement, truth: Truth)
    decreases expected
  {
    match expected
    case Blank => true
    case AnyOf(alternatives) => exists i | 0 <= i < |alternatives| :: Fits(alternatives[i], truth)
    case Dates(range) => truth.OnDay? && FitsDates(range, truth.date)
    case OnDate(text) => truth.OnDay? && FitsDates(Range(Some(text), Some(text)), truth.date)
    case Numbers(bounds, _) =>
      && truth.Amount?
      && (bounds.from.Some? && bounds.from.value.Some? ==> bounds.from.value.value <= truth.value)
      && (bounds.to.Some? && bounds.to.value.Some? ==> truth.value <= bounds.to.value.value)
  }

  // ----- Dates are judged exactly

  /** Both bounds can be read where they are given, and the first is not after the last. */
  predicate WellFormed(range: Range<DateText>) {
    && (range.from.Some? ==> BoundInterval(range.from).Some?)
    && (range.to.Some? ==> BoundInterval(range.to).Some?)
    && (range.from.Some? && range.to.Some? ==> Rank(BoundInterval(range.from).value.first) <= Rank(BoundInterval(range.to).value.last))
  }

  lemma RankInjective(a: Date, b: Date)
    requires Exists(a) && Exists(b)
    ensures Rank(a) == Rank(b) <==> a == b
    ensures Rank(a) <= Rank(b) <==>
              a.year < b.year || (a.year == b.year && (a.month < b.month || (a.month == b.month && a.day <= b.day)))
  {
  }

  /** The days a text leaves possible are those of its interval. */
  lemma CompletionsAreInterval(text: DateText, date: Date)
    requires DateInterval(text).Some? && Exists(date)
    ensures var i := DateInterval(text).value;
            && Exists(i.first) && Exists(i.last) && CompletesDate(i.first, text) && CompletesDate(i.last, text)
            && (CompletesDate(date, text) <==> Rank(i.first) <= Rank(date) <= Rank(i.last))
  {
    var i := DateInterval(text).value;
    RankInjective(i.first, date);
    RankInjective(date, i.last);
  }

  /** A date exists exactly when its month does and its day falls before the first of the next month. */
  lemma ExistsExactly(d: Date)
    ensures Exists(d) <==> 1 <= d.year <= 9999 && 1 <= d.month <= 12 && d.day >= 1 && DayNumber(d) < DayNumber(NextMonth(Date(d.year, d.month, 1)))
  {
    hide DaysBeforeYear;
    if 1 <= d.month <= 12 { MonthLengths(d.year, d.month); }
  }

  lemma YearHolds(d: Date)
    requires Exists(d)
    ensures DaysBeforeYear(d.year) < DayNumber(d) <= DaysBeforeYear(d.year + 1)
  {
    hide DaysBeforeYear;
    YearLengths(d.year);
  }

  lemma {:induction false} YearsRise(a: int, b: int)
    requires a <= b
    ensures DaysBeforeYear(a) <= DaysBeforeYear(b)
    decreases b - a
  {
    hide DaysBeforeYear;
    if a < b {
      YearLengths(b - 1);
      YearsRise(a, b - 1);
    }
  }

  lemma SameYear(a: Date, b: Date)
    requires Exists(a) && Exists(b) && a.year == b.year && Rank(a) < Rank(b)
    ensures DayNumber(a) < DayNumber(b)
  {
    hide DaysBeforeYear;
    YearLengths(a.year);
  }

  /** Dates are compared as the calendar orders their days. */
  lemma RankIsCalendar(a: Date, b: Date)
    requires Exists(a) && Exists(b)
    ensures Rank(a) <= Rank(b) <==> DayNumber(a) <= DayNumber(b)
  {
    hide DayNumber;
    if a.year < b.year { Apart(a, b); }
    else if b.year < a.year { Apart(b, a); }
    else if Rank(a) < Rank(b) { SameYear(a, b); }
    else if Rank(b) < Rank(a) { SameYear(b, a); }
    else { RankInjective(a, b); }
  }

  lemma Apart(a: Date, b: Date)
    requires Exists(a) && Exists(b) && a.year < b.year
    ensures DayNumber(a) < DayNumber(b) && Rank(a) < Rank(b)
  {
    hide DayNumber;
    YearHolds(a);
    YearHolds(b);
    YearsRise(a.year + 1, b.year);
  }

  /** A month stands for the days from its first to the eve of the next month, a day for itself. */
  lemma TextIsDays(text: DateText, d: Date)
    requires DateInterval(text).Some? && Exists(d)
    ensures var i := DateInterval(text).value;
            && (CompletesDate(d, text) <==> DayNumber(i.first) <= DayNumber(d) <= DayNumber(i.last))
            && (text.Month? ==> i.first == Date(text.year, text.month, 1) && DayNumber(i.last) + 1 == DayNumber(NextMonth(i.first)))
            && (text.Day? ==> i.first == i.last == text.date)
  {
    hide DayNumber, DaysIn, Rank;
    var i := DateInterval(text).value;
    CompletionsAreInterval(text, d);
    RankIsCalendar(i.first, d);
    RankIsCalendar(d, i.last);
    if text.Month? { MonthLengths(text.year, text.month); }
  }

  /** What can be read: every month and every day of the years 1 to 9999. */
  lemma ReadableExactly(text: DateText)
    ensures DateInterval(text).Some? <==> match text
                                          case Unreadable => false
                                          case Month(year, month) => 1 <= year <= 9999 && 1 <= month <= 12
                                          case Day(date) => Exists(date)
  {
    if text.Month? { MonthLengths(text.year, 1); }
  }

  /** A readable date is supported by a well-formed range exactly when every day it may stand for fits,
      rejected exactly when none does, and unknown exactly when some do and some do not. */
  lemma DateVerdict(range: Range<DateText>, text: DateText)
    requires WellFormed(range) && DateInterval(text).Some?
    ensures var v := DateRangeCriterion(range, text);
            && (v == Supported <==> forall d | CompletesDate(d, text) :: FitsDates(range, d))
            && (v == Rejected <==> forall d | CompletesDate(d, text) :: !FitsDates(range, d))
            && (v == Unknown <==> (exists d :: CompletesDate(d, text) && FitsDates(range, d)) && (exists d :: CompletesDate(d, text) && !FitsDates(range, d)))
  {
    hide Rank, DateInterval, CompletesDate;
    var i := DateInterval(text).value;
    var lower := BoundInterval(range.from);
    forall d | CompletesDate(d, text) ensures Rank(i.first) <= Rank(d) <= Rank(i.last) {
      CompletedExists(d, text);
      CompletionsAreInterval(text, d);
    }
    FirstExists(text);
    CompletionsAreInterval(text, i.first);
    if DateRangeCriterion(range, text) == Unknown {
      var inside := if lower.Some? && Rank(i.first) < Rank(lower.value.first) then lower.value.first else i.first;
      if lower.Some? { FirstExists(range.from.value); }
      CompletionsAreInterval(text, inside);
      assert CompletesDate(inside, text) && FitsDates(range, inside);
    }
  }

  lemma CompletedExists(d: Date, text: DateText)
    requires CompletesDate(d, text)
    ensures Exists(d)
  {
  }

  lemma FirstExists(text: DateText)
    requires DateInterval(text).Some?
    ensures Exists(DateInterval(text).value.first)
  {
  }

  /** What cannot be read, or asks for an empty range, is never judged. */
  lemma UnreadableIsUnknown(range: Range<DateText>, text: DateText)
    ensures DateRangeCriterion(range, text) != Unknown ==> WellFormed(range) && DateInterval(text).Some?
  {
  }

  // ----- Alternatives are judged soundly

  lemma NumberVerdict(bounds: Range<Option<real>>, actual: Option<real>, isYear: bool, truth: Truth)
    requires Completes(truth, NumberFact(actual))
    ensures RangeCriterion(bounds, actual, isYear) == Supported ==> Fits(Numbers(bounds, isYear), truth)
    ensures RangeCriterion(bounds, actual, isYear) == Rejected ==> !Fits(Numbers(bounds, isYear), truth)
  {
  }

  predicate IsWholeYear(n: int, x: real) {
    n >= 1900 && x == n as real
  }

  /** Numbers are judged only when they and the bounds can be read, the bounds are in order, and years are
      whole numbers from 1900 on. */
  lemma NumbersJudged(bounds: Range<Option<real>>, actual: Option<real>, isYear: bool)
    ensures RangeCriterion(bounds, actual, isYear) != Unknown <==>
              && actual.Some? && WellBounded(bounds, isYear)
              && (isYear ==> exists n :: IsWholeYear(n, actual.value))
    ensures WellBounded(bounds, isYear) && isYear && bounds.from.Some? ==> exists n :: IsWholeYear(n, bounds.from.value.value)
    ensures WellBounded(bounds, isYear) && isYear && bounds.to.Some? ==> exists n :: IsWholeYear(n, bounds.to.value.value)
  {
    if actual.Some? { YearsAreWhole(actual.value); }
    if bounds.from.Some? && bounds.from.value.Some? { YearsAreWhole(bounds.from.value.value); }
    if bounds.to.Some? && bounds.to.value.Some? { YearsAreWhole(bounds.to.value.value); }
  }

  lemma YearsAreWhole(x: real)
    ensures IsYear(x) <==> exists n :: IsWholeYear(n, x)
  {
    if IsYear(x) { assert IsWholeYear(x.Floor, x); }
  }

  /** Nothing known, nothing asked, no alternative, or a fact of another kind: never judged. */
  lemma UnsuitedIsUnknown(expected: Requirement, actual: Fact)
    ensures actual.Nothing? || expected.Blank? || expected == AnyOf([]) ==> Criterion(expected, actual) == Unknown
    ensures (expected.Dates? || expected.OnDate?) && !actual.DateFact? ==> Criterion(expected, actual) == Unknown
    ensures expected == Dates(Range(None, None)) ==> Criterion(expected, actual) == Unknown
    ensures expected.Numbers? && !actual.NumberFact? ==> Criterion(expected, actual) == Unknown
  {
  }

  /** A supported requirement is met by every vehicle the fact leaves possible, and a rejected one by
      none, however alternatives are nested. */
  lemma {:induction false} VerdictIsSound(expected: Requirement, actual: Fact, truth: Truth)
    requires Completes(truth, actual)
    ensures Criterion(expected, actual) == Supported ==> Fits(expected, truth)
    ensures Criterion(expected, actual) == Rejected ==> !Fits(expected, truth)
    decreases expected
  {
    hide DateRangeCriterion, RangeCriterion, FitsDates, DateInterval;
    if Criterion(expected, actual) != Unknown {
      match expected
      case Blank =>
      case AnyOf(alternatives) =>
        forall i | 0 <= i < |alternatives|
          ensures Criterion(alternatives[i], actual) == Supported ==> Fits(alternatives[i], truth)
          ensures Criterion(alternatives[i], actual) == Rejected ==> !Fits(alternatives[i], truth)
        {
          VerdictIsSound(alternatives[i], actual, truth);
        }
      case Dates(range) =>
        UnreadableIsUnknown(range, actual.text);
        DateVerdict(range, actual.text);
      case OnDate(text) =>
        UnreadableIsUnknown(Range(Some(text), Some(text)), actual.text);
        DateVerdict(Range(Some(text), Some(text)), actual.text);
      case Numbers(bounds, isYear) => NumberVerdict(bounds, actual.value, isYear, truth);
    }
  }

  // ----- How exactly alternatives are judged

  predicate WellBounded(bounds: Range<Option<real>>, isYear: bool) {
    && (bounds.from.Some? || bounds.to.Some?) && bounds.from != Some(None) && bounds.to != Some(None)
    && (bounds.from.Some? && bounds.to.Some? ==> bounds.from.value.value <= bounds.to.value.value)
    && (isYear ==> (bounds.from.Some? ==> IsYear(bounds.from.value.value)) && (bounds.to.Some? ==> IsYear(bounds.to.value.value)))
  }

  /** Well-formed ranges of the kind of the fact, as they stand or as alternatives nested at will. */
  predicate Suits(expected: Requirement, actual: Fact)
    decreases expected
  {
    match expected
    case Blank => false
    case AnyOf(alternatives) => alternatives != [] && forall i | 0 <= i < |alternatives| :: Suits(alternatives[i], actual)
    case Dates(range) => actual.DateFact? && (range.from.Some? || range.to.Some?) && WellFormed(range)
    case OnDate(text) => actual.DateFact? && DateInterval(text).Some?
    case Numbers(bounds, isYear) =>
      actual.NumberFact? && WellBounded(bounds, isYear) && (isYear && actual.value.Some? ==> IsYear(actual.value.value))
  }

  /** The fact can be read. */
  predicate Readable(actual: Fact) {
    match actual
    case Nothing => false
    case DateFact(text) => DateInterval(text).Some?
    case NumberFact(value) => value.Some?
  }

  /** The fact leaves one truth only. */
  predicate Known(actual: Fact) {
    Readable(actual) && (actual.DateFact? ==> actual.text.Day?)
  }

  ghost predicate AllFit(expected: Requirement, actual: Fact) {
    forall truth | Completes(truth, actual) :: Fits(expected, truth)
  }

  ghost predicate NoneFits(expected: Requirement, actual: Fact) {
    forall truth | Completes(truth, actual) :: !Fits(expected, truth)
  }

  /** One range among the alternatives is met whatever the truth. */
  ghost predicate OneCovers(expected: Requirement, actual: Fact)
    decreases expected
  {
    if expected.AnyOf? then exists i | 0 <= i < |expected.alternatives| :: OneCovers(expected.alternatives[i], actual)
    else AllFit(expected, actual)
  }

  /** A single range is judged exactly. */
  lemma RangeVerdict(expected: Requirement, actual: Fact)
    requires !expected.AnyOf? && Suits(expected, actual) && Readable(actual)
    ensures Criterion(expected, actual) == Supported <==> AllFit(expected, actual)
    ensures Criterion(expected, actual) == Rejected <==> NoneFits(expected, actual)
  {
    hide DateRangeCriterion, FitsDates, DateInterval, CompletesDate;
    if actual.DateFact? {
      var range := if expected.OnDate? then Range(Some(expected.text), Some(expected.text)) else expected.range;
      if expected.OnDate? { DayIsWellFormed(expected.text); }
      DateVerdict(range, actual.text);
      forall d ensures Completes(OnDay(d), actual) == CompletesDate(d, actual.text) { }
      forall d ensures Fits(expected, OnDay(d)) == FitsDates(range, d) { }
    } else {
      assert Completes(Amount(actual.value.value), actual);
    }
  }

  lemma DayIsWellFormed(text: DateText)
    requires DateInterval(text).Some?
    ensures WellFormed(Range(Some(text), Some(text)))
  {
  }

  /** For well-formed ranges, nested at will: rejected exactly when no truth the fact leaves possible fits,
      supported exactly when one of the ranges fits them all. */
  lemma {:induction false} AlternativesVerdict(expected: Requirement, actual: Fact)
    requires Suits(expected, actual) && Readable(actual)
    ensures Criterion(expected, actual) == Supported <==> OneCovers(expected, actual)
    ensures Criterion(expected, actual) == Rejected <==> NoneFits(expected, actual)
    decreases expected
  {
    hide Completes;
    if expected.AnyOf? {
      var alternatives := expected.alternatives;
      forall i | 0 <= i < |alternatives|
        ensures Criterion(alternatives[i], actual) == Supported <==> OneCovers(alternatives[i], actual)
        ensures Criterion(alternatives[i], actual) == Rejected <==> NoneFits(alternatives[i], actual)
      {
        AlternativesVerdict(alternatives[i], actual);
      }
      if Criterion(expected, actual) == Rejected {
        assert forall i | 0 <= i < |alternatives| :: NoneFits(alternatives[i], actual);
      }
      if NoneFits(expected, actual) {
        forall i | 0 <= i < |alternatives| ensures NoneFits(alternatives[i], actual) {
          forall truth | Completes(truth, actual) ensures !Fits(alternatives[i], truth) { assert !Fits(expected, truth); }
        }
      }
    } else {
      RangeVerdict(expected, actual);
    }
  }

  lemma OneTruth(actual: Fact, a: Truth, b: Truth)
    requires Known(actual) && Completes(a, actual) && Completes(b, actual)
    ensures a == b
  {
  }

  lemma {:induction false} CoversKnown(expected: Requirement, actual: Fact, truth: Truth)
    requires Suits(expected, actual) && Known(actual) && Completes(truth, actual)
    ensures OneCovers(expected, actual) <==> Fits(expected, truth)
    decreases expected
  {
    hide Completes, Known;
    if expected.AnyOf? {
      forall i | 0 <= i < |expected.alternatives|
        ensures OneCovers(expected.alternatives[i], actual) <==> Fits(expected.alternatives[i], truth)
      {
        CoversKnown(expected.alternatives[i], actual, truth);
      }
    } else {
      forall other | Completes(other, actual) ensures other == truth { OneTruth(actual, other, truth); }
    }
  }

  /** A known day and a known number are judged exactly. */
  lemma KnownIsJudged(expected: Requirement, actual: Fact, truth: Truth)
    requires Suits(expected, actual) && Known(actual) && Completes(truth, actual)
    ensures Criterion(expected, actual) == if Fits(expected, truth) then Supported else Rejected
  {
    hide Completes, OneCovers, Fits, Suits;
    AlternativesVerdict(expected, actual);
    CoversKnown(expected, actual, truth);
    forall other | Completes(other, actual) ensures other == truth { OneTruth(actual, other, truth); }
  }

  lemma {:induction false} CoveringFits(expected: Requirement, actual: Fact)
    requires OneCovers(expected, actual)
    ensures AllFit(expected, actual)
    decreases expected
  {
    hide Completes;
    if expected.AnyOf? {
      var i :| 0 <= i < |expected.alternatives| && OneCovers(expected.alternatives[i], actual);
      CoveringFits(expected.alternatives[i], actual);
      forall truth | Completes(truth, actual) ensures Fits(expected, truth) { assert Fits(expected.alternatives[i], truth); }
    }
  }

  /** Unknown is inexact exactly when the alternatives fit every truth between them and none does alone. */
  lemma UnknownExactly(expected: Requirement, actual: Fact)
    requires Suits(expected, actual) && Readable(actual)
    ensures (Criterion(expected, actual) == Supported <==> AllFit(expected, actual))
            <==> !(AllFit(expected, actual) && !OneCovers(expected, actual))
    ensures Criterion(expected, actual) == Unknown
            <==> !OneCovers(expected, actual) && exists truth :: Completes(truth, actual) && Fits(expected, truth)
  {
    hide Completes, OneCovers, Fits, Suits, Readable;
    AlternativesVerdict(expected, actual);
    if OneCovers(expected, actual) { CoveringFits(expected, actual); }
  }

  /** That takes two alternatives that are themselves unknown: with one, the vehicle may still not fit. */
  lemma OneUnknownIsExact(alternatives: seq<Requirement>, actual: Fact, i: nat)
    requires i < |alternatives| && Suits(AnyOf(alternatives), actual) && Readable(actual) && !alternatives[i].AnyOf?
    requires Criterion(alternatives[i], actual) == Unknown
    requires forall k | 0 <= k < |alternatives| && k != i :: Criterion(alternatives[k], actual) == Rejected
    ensures Criterion(AnyOf(alternatives), actual) == Unknown && !AllFit(AnyOf(alternatives), actual)
  {
    hide Completes, Readable, Suits;
    SuitsEach(alternatives, actual);
    RangeVerdict(alternatives[i], actual);
    var truth :| Completes(truth, actual) && !Fits(alternatives[i], truth);
    forall k | 0 <= k < |alternatives| ensures !Fits(alternatives[k], truth) {
      if k != i { AlternativesVerdict(alternatives[k], actual); }
    }
    assert !Fits(AnyOf(alternatives), truth);
  }

  lemma SuitsEach(alternatives: seq<Requirement>, actual: Fact)
    requires Suits(AnyOf(alternatives), actual)
    ensures forall k | 0 <= k < |alternatives| :: Suits(alternatives[k], actual)
  {
  }

  /** Alternatives are sound but not exact: two ranges that cover a month between them leave it unknown,
      though every day of it fits one of them. */
  lemma SplitMonthIsUnknown()
    ensures var march := Month(2010, 3);
            var early := Dates(Range(None, Some(Day(Date(2010, 3, 15)))));
            var late := Dates(Range(Some(Day(Date(2010, 3, 16))), None));
            && Criterion(AnyOf([early, late]), DateFact(march)) == Unknown
            && forall truth | Completes(truth, DateFact(march)) :: Fits(AnyOf([early, late]), truth)
  {
    var march := Month(2010, 3);
    var early := Dates(Range(None, Some(Day(Date(2010, 3, 15)))));
    var late := Dates(Range(Some(Day(Date(2010, 3, 16))), None));
    assert [early, late][0] == early && [early, late][1] == late;
    forall truth | Completes(truth, DateFact(march)) ensures Fits(AnyOf([early, late]), truth) {
      assert Fits(early, truth) || Fits(late, truth);
    }
  }

  // ----- Equipment codes

  type Code = string

  /** A list of codes; a malformed one is no list at all. */
  datatype Codes = Absent | Malformed | Listed(codes: set<Code>)

  datatype CodeRequirement = CodeRequirement(allOf: Codes, anyOf: Codes, noneOf: Codes, other: bool)

  function SetOf(c: Codes): set<Code> {
    if c.Listed? then c.codes else {}
  }

  predicate Judgeable(expected: CodeRequirement) {
    && !expected.other
    && !expected.allOf.Malformed? && !expected.anyOf.Malformed? && !expected.noneOf.Malformed?
    && SetOf(expected.allOf) + SetOf(expected.anyOf) + SetOf(expected.noneOf) != {}
  }

  function Worst(states: seq<Verdict>): Verdict {
    if Rejected in states then Rejected else if Unknown in states then Unknown else Supported
  }

  function CodesCriterion(expected: CodeRequirement, actual: Codes, complete: bool): Verdict {
    if !Judgeable(expected) || !actual.Listed? then Unknown
    else
      var observed := actual.codes;
      var allOf, anyOf, noneOf := SetOf(expected.allOf), SetOf(expected.anyOf), SetOf(expected.noneOf);
      Worst((if allOf == {} then [] else [if allOf <= observed then Supported else if complete then Rejected else Unknown])
            + (if anyOf == {} then [] else [if anyOf * observed != {} then Supported else if complete then Rejected else Unknown])
            + (if noneOf == {} then [] else [if noneOf * observed != {} then Rejected else if complete then Supported else Unknown]))
  }

  /** A requirement on codes is judged only when every list in it and the vehicle's own can be read, it asks
      for nothing else, and it names a code at all. */
  lemma CodesJudged(expected: CodeRequirement, actual: Codes, complete: bool)
    ensures !actual.Listed? || expected.other ==> CodesCriterion(expected, actual, complete) == Unknown
    ensures Malformed in {expected.allOf, expected.anyOf, expected.noneOf} ==> CodesCriterion(expected, actual, complete) == Unknown
    ensures Judgeable(expected) <==>
              && !expected.other && Malformed !in {expected.allOf, expected.anyOf, expected.noneOf}
              && exists code, codes :: codes in {expected.allOf, expected.anyOf, expected.noneOf} && codes.Listed? && code in codes.codes
  {
    var all := SetOf(expected.allOf) + SetOf(expected.anyOf) + SetOf(expected.noneOf);
    if all != {} {
      var code :| code in all;
      assert code in SetOf(expected.allOf) || code in SetOf(expected.anyOf) || code in SetOf(expected.noneOf);
    }
  }

  /** The vehicle's true codes are the listed ones, and perhaps more when the list is incomplete. */
  predicate CompletesCodes(truth: set<Code>, observed: set<Code>, complete: bool) {
    if complete then truth == observed else observed <= truth
  }

  predicate Meets(expected: CodeRequirement, truth: set<Code>) {
    && SetOf(expected.allOf) <= truth
    && (SetOf(expected.anyOf) != {} ==> SetOf(expected.anyOf) * truth != {})
    && SetOf(expected.noneOf) !! truth
  }

  /** Some set of codes meets the requirement. */
  predicate Satisfiable(expected: CodeRequirement) {
    && SetOf(expected.allOf) !! SetOf(expected.noneOf)
    && (SetOf(expected.anyOf) != {} ==> SetOf(expected.anyOf) - SetOf(expected.noneOf) != {})
  }

  lemma SatisfiableMeans(expected: CodeRequirement)
    ensures Satisfiable(expected) <==> exists truth :: Meets(expected, truth)
  {
    var allOf, anyOf, noneOf := SetOf(expected.allOf), SetOf(expected.anyOf), SetOf(expected.noneOf);
    if Satisfiable(expected) { assert Meets(expected, allOf + (anyOf - noneOf)); }
    if truth :| Meets(expected, truth) {
      if anyOf != {} {
        var c :| c in anyOf * truth;
        assert c in anyOf - noneOf;
      }
    }
  }

  lemma CodesCases(expected: CodeRequirement, observed: set<Code>, complete: bool)
    requires Judgeable(expected)
    ensures var v := CodesCriterion(expected, Listed(observed), complete);
            var allOf, anyOf, noneOf := SetOf(expected.allOf), SetOf(expected.anyOf), SetOf(expected.noneOf);
            && (v == Rejected <==> !(noneOf !! observed) || (complete && !Meets(expected, observed)))
            && (v == Supported <==> Meets(expected, observed) && (complete || noneOf == {}))
  {
    var allOf, anyOf, noneOf := SetOf(expected.allOf), SetOf(expected.anyOf), SetOf(expected.noneOf);
    var a := if allOf == {} then [] else [if allOf <= observed then Supported else if complete then Rejected else Unknown];
    var b := if anyOf == {} then [] else [if anyOf * observed != {} then Supported else if complete then Rejected else Unknown];
    var c := if noneOf == {} then [] else [if noneOf * observed != {} then Rejected else if complete then Supported else Unknown];
    assert CodesCriterion(expected, Listed(observed), complete) == Worst(a + b + c);
    forall state ensures state in a + b + c <==> state in a || state in b || state in c { }
    assert Rejected in a <==> complete && !(allOf <= observed);
    assert Unknown in a <==> !complete && !(allOf <= observed);
    assert Rejected in b <==> complete && anyOf != {} && anyOf * observed == {};
    assert Unknown in b <==> !complete && anyOf != {} && anyOf * observed == {};
    assert noneOf !! observed <==> noneOf * observed == {} by {
      assert forall x :: x in noneOf && x in observed <==> x in noneOf * observed;
    }
    assert Rejected in c <==> !(noneOf !! observed);
    assert Unknown in c <==> !complete && noneOf != {} && noneOf !! observed;
  }

  /** Supported exactly when every set of codes the list leaves possible meets the requirement; rejected
      only when none does, and exactly then if and only if the requirement can be met at all, the list is
      complete, or an excluded code is on it. */
  lemma CodesVerdict(expected: CodeRequirement, observed: set<Code>, complete: bool)
    requires Judgeable(expected)
    ensures var v := CodesCriterion(expected, Listed(observed), complete);
            && (v == Supported <==> forall truth | CompletesCodes(truth, observed, complete) :: Meets(expected, truth))
            && (v == Rejected ==> forall truth | CompletesCodes(truth, observed, complete) :: !Meets(expected, truth))
            && (Satisfiable(expected) ==>
                  (v == Rejected <==> forall truth | CompletesCodes(truth, observed, complete) :: !Meets(expected, truth)))
            && ((v == Rejected <==> forall truth | CompletesCodes(truth, observed, complete) :: !Meets(expected, truth))
                <==> Satisfiable(expected) || complete || !(SetOf(expected.noneOf) !! observed))
  {
    hide CodesCriterion;
    CodesCases(expected, observed, complete);
    SatisfiableMeans(expected);
    var allOf, anyOf, noneOf := SetOf(expected.allOf), SetOf(expected.anyOf), SetOf(expected.noneOf);
    assert CompletesCodes(observed, observed, complete);
    if !complete {
      assert CompletesCodes(observed + noneOf, observed, complete);
      if Satisfiable(expected) && noneOf !! observed {
        var truth := observed + allOf + (anyOf - noneOf);
        assert CompletesCodes(truth, observed, complete);
        if anyOf != {} {
          var c :| c in anyOf - noneOf;
          assert c in anyOf * truth;
        }
        assert Meets(expected, truth);
      }
    }
  }

  /** A code both demanded and excluded, and an incomplete list without it: no vehicle fits, and the verdict
      is unknown. */
  lemma UnmeetableIsUnknown()
    ensures var expected := CodeRequirement(Listed({"1BA"}), Absent, Listed({"1BA"}), false);
            && Judgeable(expected) && CodesCriterion(expected, Listed({}), false) == Unknown
            && forall truth :: !Meets(expected, truth)
  {
    var expected := CodeRequirement(Listed({"1BA"}), Absent, Listed({"1BA"}), false);
    CodesCases(expected, {}, false);
    assert "1BA" in SetOf(expected.allOf) && "1BA" in SetOf(expected.noneOf);
    SatisfiableMeans(expected);
  }
}
