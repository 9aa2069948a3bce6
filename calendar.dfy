/**
 * The calendar page (components/Calendar.tsx): expense and
 * fixed-deposit-maturity events, bucketed by date key, laid out on a month
 * grid that can move a month back or forward.
 *
 * Dates are handled through their date keys (what `toDateString` gives):
 * `dayKey` maps a stored ISO date to the key of its UTC-midnight day, and
 * `dateKeyOfDay(d)` is the key of day `d` of the month shown.
 */
module CalendarView {
  import opened Types
  import opened Ledger
  import Seqs
  import Grouping
  import Dates

  datatype EventKind = ExpenseEvent | FdEvent

  /** An event: its type, its name and the date key of its day. */
  datatype CalendarEvent = CalendarEvent(kind: EventKind, name: string, day: string)

  /** The event of an expense: its name, on its date. */
  function ExpenseEventOf(dayKey: string -> string): Transaction -> CalendarEvent {
    (t: Transaction) => CalendarEvent(ExpenseEvent, t.name, dayKey(t.date))
  }

  /** The event of a fixed deposit: "FD Matures: " and its bank, on its maturity date. */
  function FdEventOf(dayKey: string -> string): FixedDeposit -> CalendarEvent {
    (fd: FixedDeposit) => CalendarEvent(FdEvent, "FD Matures: " + fd.bankName, dayKey(fd.maturityDate))
  }

  /** The events: one per expense in list order, then one per fixed deposit. */
  function Events(ts: seq<Transaction>, fds: seq<FixedDeposit>, dayKey: string -> string): seq<CalendarEvent> {
    Seqs.Map(Expenses(ts), ExpenseEventOf(dayKey)) + Seqs.Map(fds, FdEventOf(dayKey))
  }

  /** `financialEvents`: push an event for each expense, then one for each fixed deposit. */
  method FinancialEvents(ts: seq<Transaction>, fds: seq<FixedDeposit>, dayKey: string -> string)
    returns (events: seq<CalendarEvent>)
    ensures events == Events(ts, fds, dayKey)
  {
    events := [];
    for i := 0 to |ts|
      invariant events == Seqs.Map(Expenses(ts[..i]), ExpenseEventOf(dayKey))
    {
      var t := ts[i];
      assert ts[..i + 1] == ts[..i] + [t];
      SplitSnoc(ts[..i], t);
      Seqs.MapConcat(Expenses(ts[..i]), [t], ExpenseEventOf(dayKey));
      if t.kind == Expense {
        events := events + [CalendarEvent(ExpenseEvent, t.name, dayKey(t.date))];
      } else {
        assert Expenses(ts[..i]) + [] == Expenses(ts[..i]);
      }
    }
    assert ts[..|ts|] == ts;
    ghost var expenseEvents := events;
    for j := 0 to |fds|
      invariant events == expenseEvents + Seqs.Map(fds[..j], FdEventOf(dayKey))
    {
      var fd := fds[j];
      assert fds[..j + 1] == fds[..j] + [fd];
      Seqs.MapConcat(fds[..j], [fd], FdEventOf(dayKey));
      events := events + [CalendarEvent(FdEvent, "FD Matures: " + fd.bankName, dayKey(fd.maturityDate))];
    }
    assert fds[..|fds|] == fds;
  }

  /**
   * Income makes no event: the events start with one per expense, in list
   * order, each named after its transaction and on its date; then come the
   * fixed deposits' events.
   */
  lemma ExpenseEventsFirst(ts: seq<Transaction>, fds: seq<FixedDeposit>, dayKey: string -> string)
    ensures |Events(ts, fds, dayKey)| == |Expenses(ts)| + |fds|
    ensures forall k :: 0 <= k < |Expenses(ts)| ==>
      Events(ts, fds, dayKey)[k] == CalendarEvent(ExpenseEvent, Expenses(ts)[k].name, dayKey(Expenses(ts)[k].date))
  {
    var es := Events(ts, fds, dayKey);
    var xs := Expenses(ts);
    var a := Seqs.Map(xs, ExpenseEventOf(dayKey));
    var b := Seqs.Map(fds, FdEventOf(dayKey));
    assert es == a + b;
    forall k | 0 <= k < |xs|
      ensures es[k] == CalendarEvent(ExpenseEvent, xs[k].name, dayKey(xs[k].date))
    {
      assert es[k] == a[k] == ExpenseEventOf(dayKey)(xs[k]);
    }
  }

  /** After the expenses' events comes one "FD Matures" event per fixed deposit, in list order, on its maturity date. */
  lemma MaturityEventsLast(ts: seq<Transaction>, fds: seq<FixedDeposit>, dayKey: string -> string)
    ensures forall k :: 0 <= k < |fds| ==>
      Events(ts, fds, dayKey)[|Expenses(ts)| + k]
        == CalendarEvent(FdEvent, "FD Matures: " + fds[k].bankName, dayKey(fds[k].maturityDate))
  {
    forall k | 0 <= k < |fds|
      ensures Events(ts, fds, dayKey)[|Expenses(ts)| + k]
        == CalendarEvent(FdEvent, "FD Matures: " + fds[k].bankName, dayKey(fds[k].maturityDate))
    {
      MaturityEventAt(ts, fds, dayKey, k);
    }
  }

  /** The event at position `k` past the expenses' events is the `k`-th fixed deposit's. */
  lemma MaturityEventAt(ts: seq<Transaction>, fds: seq<FixedDeposit>, dayKey: string -> string, k: int)
    requires 0 <= k < |fds|
    ensures Events(ts, fds, dayKey)[|Expenses(ts)| + k] == FdEventOf(dayKey)(fds[k])
  {
    var a := Seqs.Map(Expenses(ts), ExpenseEventOf(dayKey));
    var b := Seqs.Map(fds, FdEventOf(dayKey));
    Seqs.AppendIndex(a, b, k);
  }

  /** Events on a given day. */
  function OnDay(key: string): CalendarEvent -> bool {
    (e: CalendarEvent) => e.day == key
  }

  /** A bucket map holds, for each day with an event, that day's events in order, and nothing else. */
  ghost predicate Bucketed(events: seq<CalendarEvent>, buckets: map<string, seq<CalendarEvent>>) {
    (forall key :: key in buckets <==> exists e :: e in events && e.day == key) &&
    (forall key :: key in buckets ==> buckets[key] == Seqs.Filter(events, OnDay(key)))
  }

  /** `eventsByDate`: push each event into the bucket of its date key, creating the bucket on first use. */
  method EventsByDate(events: seq<CalendarEvent>) returns (buckets: map<string, seq<CalendarEvent>>)
    ensures Bucketed(events, buckets)
  {
    buckets := map[];
    for i := 0 to |events|
      invariant Bucketed(events[..i], buckets)
    {
      var e := events[i];
      assert events[..i + 1] == events[..i] + [e];
      ghost var before := buckets;
      if e.day !in buckets {
        buckets := buckets[e.day := []];
      }
      buckets := buckets[e.day := buckets[e.day] + [e]];
      BucketStep(events[..i], e, before, buckets);
    }
    assert events[..|events|] == events;
  }

  /** Pushing one more event into its bucket keeps the buckets exact. */
  lemma BucketStep(events: seq<CalendarEvent>, e: CalendarEvent,
                   before: map<string, seq<CalendarEvent>>, after: map<string, seq<CalendarEvent>>)
    requires Bucketed(events, before)
    requires e.day in after && after[e.day] == (if e.day in before then before[e.day] else []) + [e]
    requires forall key :: key != e.day ==> (key in after <==> key in before)
    requires forall key :: key != e.day && key in after ==> after[key] == before[key]
    ensures Bucketed(events + [e], after)
  {
    forall key | key in after
      ensures after[key] == Seqs.Filter(events + [e], OnDay(key))
    {
      Seqs.FilterConcat(events, [e], OnDay(key));
      assert [e][1..] == [];
      if key != e.day {
        assert Seqs.Filter(events, OnDay(key)) + [] == Seqs.Filter(events, OnDay(key));
      } else if key !in before {
        NoneOnDay(events, key);
      }
    }
    forall key ensures key in after <==> exists x :: x in events + [e] && x.day == key {
      if key in after && key != e.day {
        var x :| x in events && x.day == key;
        assert x in events + [e];
      }
      if exists x :: x in events + [e] && x.day == key {
        var x :| x in events + [e] && x.day == key;
        if x in events {
          assert key in before;
        }
      }
    }
  }

  /** `eventsByDate[key] || []`: a day without a bucket has no events. */
  function EventsOn(buckets: map<string, seq<CalendarEvent>>, key: string): seq<CalendarEvent> {
    if key in buckets then buckets[key] else []
  }

  /** Reading any day from the buckets gives exactly that day's events, in order: none for a day without a bucket. */
  lemma EventsOnIsDaysEvents(events: seq<CalendarEvent>, buckets: map<string, seq<CalendarEvent>>, key: string)
    requires Bucketed(events, buckets)
    ensures EventsOn(buckets, key) == Seqs.Filter(events, OnDay(key))
  {
    if key !in buckets {
      NoneOnDay(events, key);
    }
  }

  lemma {:induction false} NoneOnDay(events: seq<CalendarEvent>, key: string)
    requires forall e :: e in events ==> e.day != key
    ensures Seqs.Filter(events, OnDay(key)) == []
  {
    if events != [] {
      NoneOnDay(events[1..], key);
      assert events[0] in events;
      forall e | e in events[1..] ensures e.day != key {
        assert e in events;
      }
    }
  }

  function One(e: CalendarEvent): real {
    1.0
  }

  lemma {:induction false} SumOfOnes(xs: seq<CalendarEvent>)
    ensures Seqs.SumOf(xs, One) == |xs| as real
  {
    if xs != [] {
      SumOfOnes(xs[..|xs| - 1]);
    }
  }

  function DayOf(e: CalendarEvent): string {
    e.day
  }

  /**
   * Every event lands in one bucket: counting each event once under its
   * day, the bucket sizes are the per-day counts and add up to the number
   * of events.
   */
  lemma BucketSizesSumToEventCount(events: seq<CalendarEvent>, buckets: map<string, seq<CalendarEvent>>)
    requires Bucketed(events, buckets)
    ensures var counts := Grouping.GroupSums(Grouping.Pairs(events, DayOf, One));
      (forall key :: key in counts.keys <==> key in buckets) &&
      (forall key :: key in buckets ==> |buckets[key]| as real == Grouping.Lookup(counts, key)) &&
      Seqs.SumOf(Grouping.Values(counts), Seqs.Identity) == |events| as real
  {
    var pairs := Grouping.Pairs(events, DayOf, One);
    Grouping.GroupedKeys(events, DayOf, One);
    forall key | key in buckets
      ensures |buckets[key]| as real == Grouping.Lookup(Grouping.GroupSums(pairs), key)
    {
      Grouping.LookupIsSumFor(pairs, key);
      Grouping.SumForIsFilteredSum(events, DayOf, One, key);
      SumOfOnes(Seqs.Filter(events, Grouping.HasKey(DayOf, key)));
      FilterByDay(events, key);
    }
    Grouping.GroupedTotal(events, DayOf, One);
    SumOfOnes(events);
  }

  lemma {:induction false} FilterByDay(events: seq<CalendarEvent>, key: string)
    ensures Seqs.Filter(events, Grouping.HasKey(DayOf, key)) == Seqs.Filter(events, OnDay(key))
  {
    if events != [] {
      FilterByDay(events[1..], key);
      assert Grouping.HasKey(DayOf, key)(events[0]) == OnDay(key)(events[0]);
    }
  }

  // The month grid.

  /** A grid cell: a blank before the first day, or a day with up to three event dots. */
  datatype Cell = Blank | DayCell(day: nat, dots: seq<EventKind>, isToday: bool, isSelected: bool)

  function KindOf(e: CalendarEvent): EventKind {
    e.kind
  }

  /** `eventsForDay.slice(0, 3)`: the kinds of the first three events of a day. */
  function Dots(es: seq<CalendarEvent>): (dots: seq<EventKind>)
    ensures |dots| <= 3 && |dots| <= |es|
    ensures |es| >= 3 ==> |dots| == 3
    ensures forall k :: 0 <= k < |dots| ==> dots[k] == es[k].kind
  {
    Seqs.Map(if |es| <= 3 then es else es[..3], KindOf)
  }

  /**
   * The grid: `startDay` blanks (the weekday of the 1st, Sunday being 0),
   * then one cell per day of the month, numbered from 1.
   */
  method BuildGrid(startDay: nat, daysInMonth: nat, dateKeyOfDay: int -> string,
                   buckets: map<string, seq<CalendarEvent>>, todayKey: string, selectedKey: string)
    returns (cells: seq<Cell>)
    ensures |cells| == startDay + daysInMonth
    ensures forall k :: 0 <= k < startDay ==> cells[k] == Blank
    ensures forall d :: 1 <= d <= daysInMonth ==>
      var key := dateKeyOfDay(d);
      cells[startDay + d - 1] == DayCell(d, Dots(EventsOn(buckets, key)), todayKey == key, selectedKey == key)
  {
    cells := [];
    for i := 0 to startDay
      invariant |cells| == i
      invariant forall k :: 0 <= k < i ==> cells[k] == Blank
    {
      cells := cells + [Blank];
    }
    for day := 1 to daysInMonth + 1
      invariant |cells| == startDay + day - 1
      invariant forall k :: 0 <= k < startDay ==> cells[k] == Blank
      invariant forall d :: 1 <= d < day ==>
        cells[startDay + d - 1] == DayCell(d, Dots(EventsOn(buckets, dateKeyOfDay(d))), todayKey == dateKeyOfDay(d), selectedKey == dateKeyOfDay(d))
    {
      var dateKey := dateKeyOfDay(day);
      var eventsForDay := if dateKey in buckets then buckets[dateKey] else [];
      cells := cells + [DayCell(day, Dots(eventsForDay), todayKey == dateKey, selectedKey == dateKey)];
    }
  }

  /** The calendar's own state: the month shown and the date picked. */
  class CalendarPage {
    var current: Dates.YearMonth
    var selected: string

    constructor (today: Dates.YearMonth, todayKey: string)
      ensures current == today && selected == todayKey
    {
      current := today;
      selected := todayKey;
    }

    /** `changeMonth`: show the 1st of the month `offset` months away. */
    method ChangeMonth(offset: int)
      modifies this
      ensures current == Dates.ChangeMonth(old(current), offset)
      ensures Dates.MonthNumber(current) == Dates.MonthNumber(old(current)) + offset
      ensures selected == old(selected)
    {
      current := Dates.ChangeMonth(current, offset);
    }

    /** Clicking a day selects it. */
    method SelectDay(key: string)
      modifies this
      ensures selected == key && current == old(current)
    {
      selected := key;
    }
  }
}
