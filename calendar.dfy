/**
 * The calendar page (pages/calendar/index.tsx): the month grid, the entries
 * of the current month, their grouping by day and the cell and list
 * contents. `parse` is `new Date(date)` read into its calendar fields, `None`
 * for an invalid date (whose month and day read as NaN and match nothing).
 */
module CalendarPage {
  import opened Optional
  import opened DiaryTypes
  import opened Collections

  const Weekdays: seq<string> := ["Sun", "Mon", "Tue", "Wed", "Thu", "Fri", "Sat"]

  const UntitledEntry := "Untitled Entry"
  const NoEntriesThisMonth := "No entries recorded this month"

  /**
   * `[...emptyDays, ...calendarDays]`: one blank cell per weekday before the
   * first, then the days 1 to `daysInMonth` in order.
   */
  function AllDays(firstDayOfMonth: nat, daysInMonth: nat): (cells: seq<Option<nat>>)
    ensures |cells| == firstDayOfMonth + daysInMonth
    ensures forall i :: 0 <= i < firstDayOfMonth ==> cells[i] == None
    ensures forall i :: firstDayOfMonth <= i < |cells| ==> cells[i] == Some(i - firstDayOfMonth + 1)
  {
    seq(firstDayOfMonth, _ => None) + seq(daysInMonth, i => Some(i + 1))
  }

  /** Each day of the month has exactly one cell, and every other cell is blank. */
  lemma EachDayOnce(firstDayOfMonth: nat, daysInMonth: nat, day: nat)
    requires 1 <= day <= daysInMonth
    ensures var cells := AllDays(firstDayOfMonth, daysInMonth);
            forall i :: 0 <= i < |cells| ==> (cells[i] == Some(day) <==> i == firstDayOfMonth + day - 1)
  {
  }

  /** The entry is dated in the given month of the given year. */
  function InMonth(parse: string -> Option<DateInfo>, month: int, year: int): Diary -> bool
  {
    (d: Diary) => d.date != "" && parse(d.date).Some? &&
                  parse(d.date).value.month == month && parse(d.date).value.year == year
  }

  /** `entriesThisMonth`: the dated entries of the current month, in input order. */
  function EntriesThisMonth(diaries: seq<Diary>, parse: string -> Option<DateInfo>, month: int, year: int)
    : (r: seq<Diary>)
    ensures r == Filter(diaries, InMonth(parse, month, year))
    ensures forall d :: d in r <==>
              d in diaries && d.date != "" && parse(d.date).Some? &&
              parse(d.date).value.month == month && parse(d.date).value.year == year
    ensures forall d :: d in r ==> multiset(r)[d] == multiset(diaries)[d]
  {
    var r := Filter(diaries, InMonth(parse, month, year));
    forall d | d in r
      ensures multiset(r)[d] == multiset(diaries)[d]
    {
      FilterMultiplicity(diaries, InMonth(parse, month, year), d);
    }
    r
  }

  /** The day of the month an entry is filed under. */
  function DayOf(parse: string -> Option<DateInfo>): Diary -> Option<int>
  {
    (d: Diary) => if d.date != "" && parse(d.date).Some? then Some(parse(d.date).value.day) else None
  }

  /**
   * `entriesByDay`, filled by the loop over the month's entries: a day has a
   * key exactly when some entry falls on it, its list holds exactly those
   * entries in input order, and the lists together hold every entry of the
   * month once.
   */
  method EntriesByDay(diaries: seq<Diary>, parse: string -> Option<DateInfo>, month: int, year: int)
    returns (byDay: map<int, seq<Diary>>, days: seq<int>)
    ensures var entries := EntriesThisMonth(diaries, parse, month, year);
            && (forall day :: day in byDay <==> exists e :: e in entries && parse(e.date).value.day == day)
            && (forall day :: day in byDay ==> byDay[day] == Filter(entries, HasKey(DayOf(parse), day)))
            && (forall day :: day in byDay ==> byDay[day] != [])
            && (forall day :: day in days <==> day in byDay)
            && SumSizes(byDay, days) == |entries|
  {
    var entries := EntriesThisMonth(diaries, parse, month, year);
    byDay, days := GroupBy(entries, DayOf(parse));
    GroupAllShape(entries, DayOf(parse));
    GroupSizesSum(entries, DayOf(parse));
    EveryEntryHasADay(entries, parse);
    forall day | day in byDay
      ensures byDay[day] != []
    {
      var e :| e in entries && DayOf(parse)(e) == Some(day);
      assert e in byDay[day];
    }
  }

  /** Every entry of the month has a day, so none is left out of the grouping. */
  lemma EveryEntryHasADay(entries: seq<Diary>, parse: string -> Option<DateInfo>)
    requires forall e :: e in entries ==> e.date != "" && parse(e.date).Some?
    ensures Filter(entries, Keyed(DayOf(parse))) == entries
  {
    forall i | 0 <= i < |entries|
      ensures Keyed(DayOf(parse))(entries[i])
    {
      assert entries[i] in entries;
    }
    FilterKeepsAll(entries, Keyed(DayOf(parse)));
  }

  /** A day cell: blank, or the day with the titles of its entries and the overflow count. */
  datatype DayCell = Blank | Day(day: nat, titles: seq<string>, more: Option<nat>)

  function TitleOrUntitled(d: Diary): (t: string)
    ensures t != "" && (d.title != "" ==> t == d.title)
    ensures d.title == "" ==> t == UntitledEntry
  {
    if d.title != "" then d.title else UntitledEntry
  }

  /**
   * A cell lists the titles of all its day's entries and, when there are more
   * than two, the `+N more` note with N the count beyond two.
   */
  function Cell(day: Option<nat>, byDay: map<int, seq<Diary>>): (c: DayCell)
    ensures day.None? <==> c.Blank?
    ensures c.Day? ==>
              var entries := if day.value in byDay then byDay[day.value] else [];
              && c.day == day.value
              && |c.titles| == |entries|
              && (forall i :: 0 <= i < |entries| ==> c.titles[i] == TitleOrUntitled(entries[i]))
              && (c.more.Some? <==> |entries| > 2)
              && (c.more.Some? ==> c.more.value + 2 == |entries|)
  {
    match day
    case None => Blank
    case Some(d) =>
      var entries := if d in byDay then byDay[d] else [];
      var titles := seq(|entries|, i requires 0 <= i < |entries| => TitleOrUntitled(entries[i]));
      Day(d, titles, if |entries| > 2 then Some(|entries| - 2) else None)
  }

  /** The Notable Dates list: the month's entries with their dates and titles, or a notice. */
  datatype NotableDates = NoEntries(notice: string) | Listed(items: seq<(string, string)>)

  function Notable(entries: seq<Diary>, format: string -> string): (n: NotableDates)
    ensures n.NoEntries? <==> entries == []
    ensures n.NoEntries? ==> n.notice == NoEntriesThisMonth
    ensures n.Listed? ==>
              |n.items| == |entries| &&
              forall i :: 0 <= i < |entries| ==>
                n.items[i] == (format(entries[i].date), TitleOrUntitled(entries[i]))
  {
    if |entries| == 0 then NoEntries(NoEntriesThisMonth)
    else Listed(seq(|entries|, i requires 0 <= i < |entries| => (format(entries[i].date), TitleOrUntitled(entries[i]))))
  }
}
