/** `formatRelativeDate` (utils/format/date.ts): how long ago a date was, in Korean. The elapsed
    milliseconds (now minus the date) are a parameter, and so is the locale's calendar rendering of
    the date, used from a week on. */
module RelativeDate {
  import opened Text

  const MinuteMs: int := 60000
  const HourMs: int := 3600000
  const DayMs: int := 86400000

  /** The branch the elapsed time falls into, with the count it shows. */
  datatype Elapsed = MinutesAgo(minutes: int) | HoursAgo(hours: int) | Yesterday | DaysAgo(days: int) | CalendarDate

  /** The branch `formatRelativeDate` takes: whole days (floored) decide, and within the first day
      whole hours, and within the first hour whole minutes. A dated-in-the-future input floors to a
      negative day count. */
  function Classify(diff: int): (e: Elapsed)
    ensures 0 <= diff < HourMs ==> e == MinutesAgo(diff / MinuteMs) && 0 <= e.minutes < 60
    ensures HourMs <= diff < DayMs ==> e == HoursAgo(diff / HourMs) && 1 <= e.hours < 24
    ensures DayMs <= diff < 2 * DayMs ==> e == Yesterday
    ensures (2 * DayMs <= diff < 7 * DayMs) ==> e == DaysAgo(diff / DayMs) && 2 <= e.days < 7
    ensures diff < 0 ==> e == DaysAgo(diff / DayMs) && e.days < 0
    ensures 7 * DayMs <= diff ==> e == CalendarDate
  {
    var days := diff / DayMs;
    if days == 0 then
      var hours := diff / HourMs;
      if hours == 0 then MinutesAgo(diff / MinuteMs) else HoursAgo(hours)
    else if days == 1 then Yesterday
    else if days < 7 then DaysAgo(days)
    else CalendarDate
  }

  /** The text of a branch. */
  function Render(e: Elapsed, calendarText: string): string {
    match e
    case MinutesAgo(n) => IntText(n) + "분 전"
    case HoursAgo(n) => IntText(n) + "시간 전"
    case Yesterday => "어제"
    case DaysAgo(n) => IntText(n) + "일 전"
    case CalendarDate => calendarText
  }

  function FormatRelativeDate(diff: int, calendarText: string): (r: string)
    ensures 0 <= diff < HourMs ==> r == NatText(diff / MinuteMs) + "분 전"
    ensures HourMs <= diff < DayMs ==> r == NatText(diff / HourMs) + "시간 전"
    ensures DayMs <= diff < 2 * DayMs ==> r == "어제"
    ensures 2 * DayMs <= diff < 7 * DayMs ==> r == NatText(diff / DayMs) + "일 전"
    ensures diff < 0 ==> r == "-" + NatText(-(diff / DayMs)) + "일 전"
    ensures 7 * DayMs <= diff ==> r == calendarText
  {
    Render(Classify(diff), calendarText)
  }

  /** A relative text is sure of its branch and its count: two branches other than the calendar
      date never read alike. */
  lemma {:induction false} RenderInjective(a: Elapsed, b: Elapsed, calendarText: string)
    requires a != CalendarDate && b != CalendarDate
    requires Render(a, calendarText) == Render(b, calendarText)
    ensures a == b
  {
    var r := Render(a, calendarText);
    if a.Yesterday? && b.Yesterday? {
    } else if a.Yesterday? {
      IntTextLength(b, calendarText);
    } else if b.Yesterday? {
      IntTextLength(a, calendarText);
    } else {
      var na := if a.MinutesAgo? then a.minutes else if a.HoursAgo? then a.hours else a.days;
      var nb := if b.MinutesAgo? then b.minutes else if b.HoursAgo? then b.hours else b.days;
      var sa := Unit(a);
      var sb := Unit(b);
      assert r == IntText(na) + sa == IntText(nb) + sb;
      assert r[|r| - 3] == sa[|sa| - 3] == sb[|sb| - 3];
      assert a.MinutesAgo? <==> b.MinutesAgo?;
      assert a.HoursAgo? <==> b.HoursAgo?;
      assert sa == sb;
      assert IntText(na) == r[..|r| - |sa|] == IntText(nb);
      IntTextInjective(na, nb);
    }
  }

  /** The unit suffix of a counted branch. */
  function Unit(e: Elapsed): (s: string)
    requires e.MinutesAgo? || e.HoursAgo? || e.DaysAgo?
    ensures |s| >= 3
  {
    if e.MinutesAgo? then "분 전" else if e.HoursAgo? then "시간 전" else "일 전"
  }

  /** A counted branch's text is at least a digit and its unit, so never "어제". */
  lemma IntTextLength(e: Elapsed, calendarText: string)
    requires e.MinutesAgo? || e.HoursAgo? || e.DaysAgo?
    ensures |Render(e, calendarText)| > 2
  {
    var n := if e.MinutesAgo? then e.minutes else if e.HoursAgo? then e.hours else e.days;
    assert |IntText(n)| >= 1;
  }

  lemma FormatRelativeDateExamples(calendarText: string)
    ensures FormatRelativeDate(0, calendarText) == "0분 전"
    ensures FormatRelativeDate(59 * MinuteMs + 59999, calendarText) == "59분 전"
    ensures FormatRelativeDate(HourMs, calendarText) == "1시간 전"
    ensures FormatRelativeDate(DayMs + 1, calendarText) == "어제"
    ensures FormatRelativeDate(7 * DayMs, calendarText) == calendarText
  {
  }
}
