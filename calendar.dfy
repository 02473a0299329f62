/**
 * The calendar page: a fixed list of dated events and the read-only
 * projections drawn from it on every render: the next five events, the
 * events of the month shown by the calendar widget, the monthly counters and
 * the dates the widget highlights.
 *
 * Instants are millisecond timestamps. The moment of rendering (`now`) and
 * the host's local-time breakdown of an instant into month and year (`cal`)
 * are parameters.
 */
module Calendar {
  import opened Lists
  import opened Wrappers

  datatype CalendarEvent = CalendarEvent(
    id: int, title: string, date: int, time: string, location: string, color: string)

  /** What `getMonth()` and `getFullYear()` report for an instant. */
  datatype MonthYear = MonthYear(month: int, year: int)

  const MillisPerDay := 24 * 60 * 60 * 1000

  /** Length of the "Próximos 30 días" window: 2,592,000,000 ms. */
  const ThirtyDays := 30 * MillisPerDay

  /** The five events of the page, dated at midnight (UTC) of their day in 2025. */
  const MockEvents: seq<CalendarEvent> := [
    CalendarEvent(1, "Jornada de Limpieza Comunitaria", 1761609600000, "8:00 AM", "Parque Central", "bg-[#007B3E]"),
    CalendarEvent(2, "Reunión Mensual de Vecinos", 1762041600000, "6:00 PM", "Salón Comunal", "bg-[#004E92]"),
    CalendarEvent(3, "Festival Cultural Comunitario", 1763164800000, "10:00 AM", "Plaza Principal", "bg-[#007B3E]"),
    CalendarEvent(4, "Taller de Reciclaje", 1763596800000, "3:00 PM", "Biblioteca Comunitaria", "bg-[#004E92]"),
    CalendarEvent(5, "Mercado Comunitario", 1764028800000, "9:00 AM", "Plaza Principal", "bg-[#007B3E]")
  ]

  // ---------------------------------------------------------------- sorting

  ghost predicate SortedByDate(s: seq<CalendarEvent>)
  {
    forall i, j :: 0 <= i < j < |s| ==> s[i].date <= s[j].date
  }

  /** Insert `x` in front of the first later event (before events of equal date). */
  function InsertByDate(x: CalendarEvent, s: seq<CalendarEvent>): (r: seq<CalendarEvent>)
    requires SortedByDate(s)
    ensures SortedByDate(r) && |r| == |s| + 1
    ensures multiset(r) == multiset(s) + multiset{x}
  {
    if s == [] || x.date <= s[0].date then
      PrependEarliest(x, s);
      [x] + s
    else
      var rest := InsertByDate(x, s[1..]);
      InsertBehindHead(s, x, rest);
      [s[0]] + rest
  }

  /** An event no later than the head of a sorted list can go in front of it. */
  lemma PrependEarliest(x: CalendarEvent, s: seq<CalendarEvent>)
    requires SortedByDate(s) && (s == [] || x.date <= s[0].date)
    ensures SortedByDate([x] + s)
  {
    forall i, j | 0 <= i < j < |[x] + s| ensures ([x] + s)[i].date <= ([x] + s)[j].date {
      if i > 0 {
        assert ([x] + s)[i] == s[i - 1];
      }
      assert ([x] + s)[j] == s[j - 1];
    }
  }

  /** Keeping the head in front of the tail with `x` inserted keeps the list sorted and complete. */
  lemma InsertBehindHead(s: seq<CalendarEvent>, x: CalendarEvent, rest: seq<CalendarEvent>)
    requires SortedByDate(s) && s != [] && s[0].date <= x.date
    requires SortedByDate(rest) && multiset(rest) == multiset(s[1..]) + multiset{x}
    ensures SortedByDate([s[0]] + rest)
    ensures multiset([s[0]] + rest) == multiset(s) + multiset{x}
  {
    assert s == [s[0]] + s[1..];
    NoEarlierThanHead(s, x, rest);
    forall i, j | 0 <= i < j < |[s[0]] + rest|
      ensures ([s[0]] + rest)[i].date <= ([s[0]] + rest)[j].date
    {
      assert ([s[0]] + rest)[j] == rest[j - 1];
      if i > 0 {
        assert ([s[0]] + rest)[i] == rest[i - 1];
      }
    }
  }

  /** The head of a sorted list is no later than anything in the tail with `x` added. */
  lemma NoEarlierThanHead(s: seq<CalendarEvent>, x: CalendarEvent, rest: seq<CalendarEvent>)
    requires SortedByDate(s) && s != [] && s[0].date <= x.date
    requires multiset(rest) == multiset(s[1..]) + multiset{x}
    ensures forall k :: 0 <= k < |rest| ==> s[0].date <= rest[k].date
  {
    forall k | 0 <= k < |rest| ensures s[0].date <= rest[k].date {
      assert rest[k] in multiset(rest);
      if rest[k] != x {
        assert rest[k] in multiset(s[1..]);
        var m :| 0 <= m < |s[1..]| && s[1..][m] == rest[k];
        assert s[m + 1] == rest[k];
      }
    }
  }

  /** The date sort: ascending by date, the same events. */
  function SortByDate(s: seq<CalendarEvent>): (r: seq<CalendarEvent>)
    ensures SortedByDate(r) && |r| == |s|
    ensures multiset(r) == multiset(s)
  {
    if s == [] then []
    else
      assert s == [s[0]] + s[1..];
      InsertByDate(s[0], SortByDate(s[1..]))
  }

  // ---------------------------------------------------------------- projections

  predicate NotPast(e: CalendarEvent, now: int)
  {
    e.date >= now
  }

  /** The events not yet past at `now`, in list order. */
  function NotPastEvents(events: seq<CalendarEvent>, now: int): (r: seq<CalendarEvent>)
    ensures IsSubsequence(r, events)
    ensures forall i :: 0 <= i < |events| ==> (events[i] in r <==> events[i].date >= now)
    ensures forall i :: 0 <= i < |r| ==> r[i].date >= now
    ensures |r| == Count(events, e => NotPast(e, now))
  {
    Keep(events, e => NotPast(e, now))
  }

  /** When no event is past, the not-past filter keeps the whole list. */
  lemma AllNotPastKept(events: seq<CalendarEvent>, now: int)
    requires forall i :: 0 <= i < |events| ==> NotPast(events[i], now)
    ensures NotPastEvents(events, now) == events
  {
    KeepAllIsIdentity(events, e => NotPast(e, now));
  }

  /** The first (at most) five entries. */
  function FirstFive(s: seq<CalendarEvent>): seq<CalendarEvent>
  {
    if |s| < 5 then s else s[..5]
  }

  /**
   * `upcomingEvents`: the not-past events, ascending by date, first five.
   * They are the earliest not-past events: any not-past event of which fewer
   * copies are shown than the list holds is no earlier than every one shown.
   */
  function Upcoming(events: seq<CalendarEvent>, now: int): (r: seq<CalendarEvent>)
    ensures |r| == if |NotPastEvents(events, now)| < 5 then |NotPastEvents(events, now)| else 5
    ensures forall i :: 0 <= i < |r| ==> r[i].date >= now
    ensures SortedByDate(r)
    ensures multiset(r) <= multiset(events)
    ensures forall j, i ::
              0 <= j < |events| && events[j].date >= now &&
              multiset(r)[events[j]] < multiset(events)[events[j]] && 0 <= i < |r| ==>
              r[i].date <= events[j].date
  {
    var sorted := SortByDate(NotPastEvents(events, now));
    var n := if |sorted| < 5 then |sorted| else 5;
    assert FirstFive(sorted) == sorted[..n];
    SortedNotPast(events, now);
    PrefixFacts(sorted, n, now, events);
    PrefixHoldsEarliest(events, now, sorted, n);
    FirstFive(sorted)
  }

  /** The sorted not-past events are not past and come from the list. */
  lemma SortedNotPast(events: seq<CalendarEvent>, now: int)
    ensures var sorted := SortByDate(NotPastEvents(events, now));
      && (forall i :: 0 <= i < |sorted| ==> sorted[i].date >= now)
      && multiset(sorted) <= multiset(events)
  {
    var pending := NotPastEvents(events, now);
    var sorted := SortByDate(pending);
    KeepMultiset(events, e => NotPast(e, now));
    forall i | 0 <= i < |sorted| ensures sorted[i].date >= now {
      assert sorted[i] in multiset(sorted);
      assert sorted[i] in pending;
    }
  }

  /** A prefix of a sorted, not-past sub-multiset of the list keeps all three properties. */
  lemma PrefixFacts(sorted: seq<CalendarEvent>, n: nat, now: int, events: seq<CalendarEvent>)
    requires n <= |sorted| && SortedByDate(sorted) && multiset(sorted) <= multiset(events)
    requires forall i :: 0 <= i < |sorted| ==> sorted[i].date >= now
    ensures SortedByDate(sorted[..n]) && multiset(sorted[..n]) <= multiset(events)
    ensures forall i :: 0 <= i < n ==> sorted[..n][i].date >= now
  {
    assert sorted == sorted[..n] + sorted[n..];
  }

  /** A prefix of the sorted not-past events holds the earliest of them. */
  lemma PrefixHoldsEarliest(events: seq<CalendarEvent>, now: int, sorted: seq<CalendarEvent>, n: nat)
    requires sorted == SortByDate(NotPastEvents(events, now)) && n <= |sorted|
    ensures forall j, i ::
              0 <= j < |events| && events[j].date >= now &&
              multiset(sorted[..n])[events[j]] < multiset(events)[events[j]] && 0 <= i < n ==>
              sorted[..n][i].date <= events[j].date
  {
    forall j, i | 0 <= j < |events| && events[j].date >= now &&
                  multiset(sorted[..n])[events[j]] < multiset(events)[events[j]] && 0 <= i < n
      ensures sorted[..n][i].date <= events[j].date
    {
      KeepMultiplicity(events, e => NotPast(e, now), events[j]);
      assert multiset(sorted)[events[j]] == multiset(events)[events[j]];
      LeftOutIsNoEarlier(sorted, n, events[j], i);
    }
  }

  /**
   * In a sorted list, an element with a copy beyond the first `n` entries is
   * no earlier than any of them.
   */
  lemma LeftOutIsNoEarlier(sorted: seq<CalendarEvent>, n: nat, e: CalendarEvent, i: nat)
    requires SortedByDate(sorted) && i < n <= |sorted|
    requires multiset(sorted[..n])[e] < multiset(sorted)[e]
    ensures sorted[..n][i].date <= e.date
  {
    assert sorted == sorted[..n] + sorted[n..];
    assert e in multiset(sorted[n..]);
    var m :| 0 <= m < |sorted[n..]| && sorted[n..][m] == e;
    assert sorted[n + m] == e;
  }

  /** Month and year of an event equal those of the calendar's month cursor. */
  predicate InMonth(e: CalendarEvent, cursor: int, cal: int -> MonthYear)
  {
    cal(e.date).month == cal(cursor).month && cal(e.date).year == cal(cursor).year
  }

  /** "Eventos del Mes": the events in the cursor's month and year, in list order. */
  function MonthEvents(events: seq<CalendarEvent>, cursor: int, cal: int -> MonthYear): (r: seq<CalendarEvent>)
    ensures IsSubsequence(r, events)
    ensures forall i :: 0 <= i < |r| ==> cal(r[i].date) == cal(cursor)
    ensures forall i :: 0 <= i < |events| ==> (events[i] in r <==> cal(events[i].date) == cal(cursor))
    ensures |r| == Count(events, e => InMonth(e, cursor, cal))
  {
    Keep(events, e => InMonth(e, cursor, cal))
  }

  predicate InNextThirtyDays(e: CalendarEvent, now: int)
  {
    e.date >= now && e.date <= now + ThirtyDays
  }

  /** "Próximos 30 días": how many events fall in [now, now + 30 days]. */
  function NextThirtyDaysCount(events: seq<CalendarEvent>, now: int): (n: nat)
    ensures n == Count(events, e => InNextThirtyDays(e, now))
    ensures n <= |NotPastEvents(events, now)|
  {
    KeepMonotone(events, e => InNextThirtyDays(e, now), e => NotPast(e, now));
    |Keep(events, e => InNextThirtyDays(e, now))|
  }

  /** `eventDates`: the dates the calendar widget highlights, one per event, in order. */
  function EventDates(events: seq<CalendarEvent>): (r: seq<int>)
    ensures |r| == |events|
    ensures forall i :: 0 <= i < |events| ==> r[i] == events[i].date
  {
    if events == [] then [] else [events[0].date] + EventDates(events[1..])
  }

  /** The three counters of the "Resumen Mensual" card. */
  datatype MonthlySummary = MonthlySummary(total: nat, thisMonth: nat, nextThirtyDays: nat)

  function Summary(events: seq<CalendarEvent>, now: int, cursor: int, cal: int -> MonthYear): (s: MonthlySummary)
    ensures s.total == |events|
    ensures s.thisMonth == |MonthEvents(events, cursor, cal)| && s.thisMonth <= s.total
    ensures s.nextThirtyDays == NextThirtyDaysCount(events, now)
    ensures s.nextThirtyDays <= |NotPastEvents(events, now)| <= s.total
  {
    SubsequenceCountBound(MonthEvents(events, cursor, cal), events, _ => true);
    SubsequenceCountBound(NotPastEvents(events, now), events, _ => true);
    MonthlySummary(|events|, |MonthEvents(events, cursor, cal)|, NextThirtyDaysCount(events, now))
  }

  /** The page's two state cells: the selected day and the month cursor. */
  datatype CalendarState = CalendarState(selectedDate: Option<int>, currentMonth: int)

  /** On mount the selected day and the month cursor are both the moment of rendering. */
  function InitialState(now: int): (st: CalendarState)
    ensures st.selectedDate == Some(now) && st.currentMonth == now
  {
    CalendarState(Some(now), now)
  }

  /** Everything the page renders from its events. */
  datatype CalendarView = CalendarView(
    upcoming: seq<CalendarEvent>, highlighted: seq<int>, summary: MonthlySummary,
    monthEvents: seq<CalendarEvent>)

  /**
   * The page for one state: at most five upcoming events, none of them past;
   * one highlighted date per event; a total that counts every event; and a
   * month list, counted by "Este Mes", holding only events of the cursor's month.
   */
  function Render(events: seq<CalendarEvent>, now: int, st: CalendarState, cal: int -> MonthYear): (v: CalendarView)
    ensures |v.upcoming| <= 5 && forall i :: 0 <= i < |v.upcoming| ==> v.upcoming[i].date >= now
    ensures |v.highlighted| == |events|
    ensures v.summary.total == |events| && v.summary.thisMonth == |v.monthEvents|
    ensures forall i :: 0 <= i < |v.monthEvents| ==> cal(v.monthEvents[i].date) == cal(st.currentMonth)
    ensures v.upcoming == Upcoming(events, now) && v.highlighted == EventDates(events)
    ensures v.monthEvents == MonthEvents(events, st.currentMonth, cal)
    ensures v.summary == Summary(events, now, st.currentMonth, cal)
  {
    CalendarView(Upcoming(events, now), EventDates(events),
                 Summary(events, now, st.currentMonth, cal), MonthEvents(events, st.currentMonth, cal))
  }

  /**
   * On mount the month list and the "Este Mes" counter are those of the
   * month the page is rendered in.
   */
  lemma InitialMonthIsCurrent(events: seq<CalendarEvent>, now: int, cal: int -> MonthYear)
    ensures var v := Render(events, now, InitialState(now), cal);
      v.monthEvents == MonthEvents(events, now, cal)
      && (forall i :: 0 <= i < |events| ==> (events[i] in v.monthEvents <==> cal(events[i].date) == cal(now)))
  {
  }

  /**
   * Moving the month cursor or selecting a day leaves the upcoming list, the
   * highlighted dates, the total and the 30-day counter as they were.
   */
  lemma CursorMovesOnlyMonthProjections(
    events: seq<CalendarEvent>, now: int, st: CalendarState, st': CalendarState, cal: int -> MonthYear)
    ensures var v, v' := Render(events, now, st, cal), Render(events, now, st', cal);
      v'.upcoming == v.upcoming && v'.highlighted == v.highlighted
      && v'.summary.total == v.summary.total && v'.summary.nextThirtyDays == v.summary.nextThirtyDays
  {
  }

  /** The five events are listed in date order. */
  lemma MockEventsSorted()
    ensures SortedByDate(MockEvents)
  {
  }

  /** So sorting them keeps them as they are. */
  lemma MockSortKeepsOrder()
    ensures SortByDate(MockEvents) == MockEvents
  {
    MockEventsSorted();
    SortedSortIsIdentity(MockEvents);
  }

  /** On 15 October 2025 (midnight UTC) no event is past yet. */
  lemma MockNothingPastOnOctober15()
    ensures NotPastEvents(MockEvents, 1760486400000) == MockEvents
  {
    assert forall i :: 0 <= i < |MockEvents| ==> NotPast(MockEvents[i], 1760486400000);
    AllNotPastKept(MockEvents, 1760486400000);
  }

  /** The list has exactly five events, so the slice keeps all of them. */
  lemma MockFirstFive()
    ensures FirstFive(MockEvents) == MockEvents
  {
  }

  /** On 15 October 2025 (midnight UTC) all five events are upcoming, in list order. */
  lemma MockUpcomingBeforeFirst()
    ensures Upcoming(MockEvents, 1760486400000) == MockEvents
  {
    MockNothingPastOnOctober15();
    MockSortKeepsOrder();
    MockFirstFive();
  }

  /** After the last event's day has begun, nothing is upcoming. */
  lemma MockUpcomingAfterLast(now: int)
    requires now > 1764028800000
    ensures Upcoming(MockEvents, now) == []
  {
    assert forall i :: 0 <= i < |MockEvents| ==> !NotPast(MockEvents[i], now);
  }

  /** Sorting a list already in date order leaves it as it is. */
  lemma {:induction false} SortedSortIsIdentity(s: seq<CalendarEvent>)
    requires SortedByDate(s)
    ensures SortByDate(s) == s
  {
    if s != [] {
      SortedSortIsIdentity(s[1..]);
      assert s == [s[0]] + s[1..];
    }
  }
}
