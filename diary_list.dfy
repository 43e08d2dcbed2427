/**
 * The diary list page (pages/diary/index.tsx): loading the entries, grouping
 * them by month and ordering months and entries most recent first.
 *
 * Dates are inputs: `monthLabel` is `format(new Date(date), 'MMMM yyyy')`,
 * `None` where formatting throws; `monthTime` is the instant a month label
 * parses to and `diaryTime` the instant of an entry's date.
 */
module DiaryList {
  import opened Optional
  import opened DiaryTypes
  import opened Collections
  import Api

  /** The month an entry is filed under: none without a date or where formatting throws. */
  function MonthOf(monthLabel: string -> Option<string>): Diary -> Option<string>
  {
    (d: Diary) => if d.date == "" then None else monthLabel(d.date)
  }

  /**
   * `groupByMonth`: every dated entry whose date formats goes to exactly the
   * group of its month, in input order; the group sizes add up to the number
   * of such entries.
   */
  method GroupByMonth(diaries: seq<Diary>, monthLabel: string -> Option<string>)
    returns (grouped: map<string, seq<Diary>>, months: seq<string>)
    ensures Groups(grouped, months) == GroupAll(diaries, MonthOf(monthLabel))
    ensures forall m :: m in grouped <==> exists d :: d in diaries && d.date != "" && monthLabel(d.date) == Some(m)
    ensures forall m, d :: m in grouped && d in grouped[m] ==> d.date != "" && monthLabel(d.date) == Some(m)
    ensures forall m :: m in grouped ==> grouped[m] == Filter(diaries, HasKey(MonthOf(monthLabel), m))
    ensures forall m :: m in months <==> m in grouped
    ensures Distinct(months)
    ensures SumSizes(grouped, months) == |Filter(diaries, Keyed(MonthOf(monthLabel)))|
  {
    grouped, months := GroupBy(diaries, MonthOf(monthLabel));
    GroupAllShape(diaries, MonthOf(monthLabel));
    GroupSizesSum(diaries, MonthOf(monthLabel));
    MonthKeys(diaries, monthLabel, grouped);
    MonthMembers(diaries, monthLabel, grouped);
  }

  /** A month has a group exactly when some dated entry formats to it. */
  lemma MonthKeys(diaries: seq<Diary>, monthLabel: string -> Option<string>, grouped: map<string, seq<Diary>>)
    requires forall k :: k in grouped <==> exists x :: x in diaries && MonthOf(monthLabel)(x) == Some(k)
    ensures forall m :: m in grouped <==> exists d :: d in diaries && d.date != "" && monthLabel(d.date) == Some(m)
  {
    forall m
      ensures m in grouped <==> exists d :: d in diaries && d.date != "" && monthLabel(d.date) == Some(m)
    {
      if m in grouped {
        var x :| x in diaries && MonthOf(monthLabel)(x) == Some(m);
        assert x.date != "" && monthLabel(x.date) == Some(m);
      }
      if d :| d in diaries && d.date != "" && monthLabel(d.date) == Some(m) {
        assert MonthOf(monthLabel)(d) == Some(m);
      }
    }
  }

  /** Every entry in a month's group is dated and formats to that month. */
  lemma MonthMembers(diaries: seq<Diary>, monthLabel: string -> Option<string>, grouped: map<string, seq<Diary>>)
    requires forall k :: k in grouped ==> grouped[k] == Filter(diaries, HasKey(MonthOf(monthLabel), k))
    ensures forall m, d :: m in grouped && d in grouped[m] ==> d.date != "" && monthLabel(d.date) == Some(m)
  {
    forall m, d | m in grouped && d in grouped[m]
      ensures d.date != "" && monthLabel(d.date) == Some(m)
    {
      assert HasKey(MonthOf(monthLabel), m)(d);
    }
  }

  datatype MonthSection = MonthSection(month: string, entries: seq<Diary>)

  datatype ListView = Loading | EmptyState | Sections(sections: seq<MonthSection>)

  function MonthsOf(sections: seq<MonthSection>): (ms: seq<string>)
    ensures |ms| == |sections| && forall i :: 0 <= i < |ms| ==> ms[i] == sections[i].month
  {
    seq(|sections|, i requires 0 <= i < |sections| => sections[i].month)
  }

  /** One month's section: its entries most recent first. */
  function Section(g: Groups<string, Diary>, month: string, diaryTime: Diary -> int): (s: MonthSection)
    requires month in g.byKey
    ensures s.month == month
    ensures SortedDesc(s.entries, diaryTime) && multiset(s.entries) == multiset(g.byKey[month])
  {
    MonthSection(month, SortDesc(g.byKey[month], diaryTime))
  }

  /** A reordering of the listed months lists only months that have a group. */
  lemma ReorderedMonthsHaveGroups(g: Groups<string, Diary>, ms: seq<string>)
    requires forall m :: m in g.order ==> m in g.byKey
    requires multiset(ms) == multiset(g.order)
    ensures forall i :: 0 <= i < |ms| ==> ms[i] in g.byKey
  {
    forall i | 0 <= i < |ms|
      ensures ms[i] in g.byKey
    {
      assert ms[i] in multiset(ms);
    }
  }

  /**
   * The rendered groups: the months most recent first, each with its entries
   * most recent first; every month shown once and each section exactly its
   * group's entries.
   */
  function MonthSections(g: Groups<string, Diary>, monthTime: string -> int, diaryTime: Diary -> int)
    : (r: seq<MonthSection>)
    requires forall m :: m in g.order ==> m in g.byKey
    ensures SortedDesc(MonthsOf(r), monthTime)
    ensures multiset(MonthsOf(r)) == multiset(g.order)
    ensures forall i :: 0 <= i < |r| ==>
              && r[i].month in g.byKey
              && SortedDesc(r[i].entries, diaryTime)
              && multiset(r[i].entries) == multiset(g.byKey[r[i].month])
  {
    var ms := SortDesc(g.order, monthTime);
    ReorderedMonthsHaveGroups(g, ms);
    var r := seq(|ms|, i requires 0 <= i < |ms| => Section(g, ms[i], diaryTime));
    assert MonthsOf(r) == ms;
    r
  }

  class DiaryListPage {
    var diaries: seq<Diary>
    var loading: bool

    constructor()
      ensures diaries == [] && loading
    {
      diaries := [];
      loading := true;
    }

    /** `loadDiaries`: the fetched list (empty when the fetch failed); loading ends. */
    method LoadDiaries(reply: Api.Remote<seq<Diary>>)
      modifies this
      ensures diaries == Api.GetDiaries(reply) && !loading
      ensures reply.Failed? ==> diaries == []
    {
      loading := true;
      diaries := Api.GetDiaries(reply);
      loading := false;
    }

    /**
     * What the page shows: the loading notice, the empty state for an empty
     * list, or the month sections of the grouped entries.
     */
    method Render(monthLabel: string -> Option<string>, monthTime: string -> int, diaryTime: Diary -> int)
      returns (v: ListView)
      ensures v.Loading? <==> loading
      ensures v.EmptyState? <==> !loading && diaries == []
      ensures v.Sections? ==>
                var g := GroupAll(diaries, MonthOf(monthLabel));
                && (forall m :: m in g.order ==> m in g.byKey)
                && v.sections == MonthSections(g, monthTime, diaryTime)
    {
      var grouped, months := GroupByMonth(diaries, monthLabel);
      if loading {
        v := Loading;
      } else if |diaries| == 0 {
        v := EmptyState;
      } else {
        v := Sections(MonthSections(Groups(grouped, months), monthTime, diaryTime));
      }
    }
  }
}
