/**
 * The calendar page: the events of the displayed month (its invoices by due
 * date, and the debts placed in that month and kept when they fall inside
 * it), and the month grid of leading blank cells followed by one cell per
 * day, each showing the events of that day.
 */
module Calendar {
  import opened Wrappers
  import opened Dates
  import opened Records

  datatype EventKind = InvoiceEvent | DebtEvent

  /** An `Event`; its date is a calendar day (its midnight when compared). */
  datatype Event = Event(id: string, title: string, date: Day, amount: Option<int>, kind: EventKind)

  /** `startOfMonth(currentDate)`: the first instant of month k. */
  function MonthStartTime(k: int): Time {
    Midnight(MonthStart(k))
  }

  /** `endOfMonth(currentDate)`: the last millisecond of month k. */
  function MonthEndTime(k: int): Time {
    Midnight(MonthStart(k + 1)) - 1
  }

  /** `date >= start && date <= end` for the midnight of `day`. */
  predicate InMonth(day: Day, k: int) {
    MonthStartTime(k) <= Midnight(day) <= MonthEndTime(k)
  }

  /** The bounds hold exactly for the days of month k. */
  lemma InMonthIff(day: Day, k: int)
    ensures InMonth(day, k) <==> MonthOfDay(day) == k
  {
    if MonthStart(k) <= day < MonthStart(k + 1) {
      MonthOfDayUnique(day, k);
    }
  }

  // ---------------------------------------------------------------------
  // fetchEvents

  /** The invoice query: a due date between the month's first and last instant. */
  predicate InvoiceInMonth(row: InvoiceRow, k: int) {
    row.invoice.dueDate.Some? && InMonth(row.invoice.dueDate.value, k)
  }

  function InvoiceEventOf(row: InvoiceRow): Event
    requires row.invoice.dueDate.Some?
  {
    Event(row.invoice.id, row.cardName, row.invoice.dueDate.value, row.invoice.amount, InvoiceEvent)
  }

  /** One event per invoice the query returns, in order. */
  function InvoiceEvents(rows: seq<InvoiceRow>, k: int): (r: seq<Event>)
    ensures |r| <= |rows|
  {
    if rows == [] then []
    else
      var last := rows[|rows| - 1];
      InvoiceEvents(rows[..|rows| - 1], k) + if InvoiceInMonth(last, k) then [InvoiceEventOf(last)] else []
  }

  /**
   * `debtDate`: the specific date of a single debt that has one; otherwise
   * `new Date(year, month, due_day || 10)` in the displayed month, with no
   * moving on.
   */
  function DebtDate(debt: Debt, now: Time): Day {
    if HasSpecificDate(debt) then debt.specificDueDate.value
    else
      var k := MonthOfDay(DayOf(now));
      JsDateDay(JsYear(YearOfMonth(k)), Month0OfMonth(k), DueDayOrDefault(debt))
  }

  /** The event a debt contributes: when its date is inside the month and something is left to pay. */
  function DebtEventOf(debt: Debt, now: Time): (r: Option<Event>)
    ensures r.Some? <==> InMonth(DebtDate(debt, now), MonthOfDay(DayOf(now))) && debt.remainingAmount > 0
    ensures r.Some? ==> r.value == Event(debt.id, debt.name, DebtDate(debt, now), Some(DebtAmount(debt)), DebtEvent)
  {
    var date := DebtDate(debt, now);
    if InMonth(date, MonthOfDay(DayOf(now))) && debt.remainingAmount > 0 then
      Some(Event(debt.id, debt.name, date, Some(DebtAmount(debt)), DebtEvent))
    else None
  }

  /** The events of the user's debts, in order. */
  function DebtEvents(debts: seq<Debt>, user: string, now: Time): (r: seq<Event>)
    ensures |r| <= |debts|
  {
    if debts == [] then []
    else
      var last := debts[|debts| - 1];
      var e := DebtEventOf(last, now);
      DebtEvents(debts[..|debts| - 1], user, now) + if last.userId == user && e.Some? then [e.value] else []
  }

  /** The month's events: invoices first, then debts. */
  function Events(user: string, invoices: seq<InvoiceRow>, debts: seq<Debt>, now: Time): seq<Event> {
    InvoiceEvents(invoices, MonthOfDay(DayOf(now))) + DebtEvents(debts, user, now)
  }

  /** Each invoice due in the month is exactly one event, in order, with its due date, card name and amount. */
  lemma {:induction false} InvoiceEventsExact(rows: seq<InvoiceRow>, k: int)
    ensures forall e :: e in InvoiceEvents(rows, k) <==>
      exists row :: row in rows && InvoiceInMonth(row, k) && e == InvoiceEventOf(row)
    ensures (forall row :: row in rows ==> InvoiceInMonth(row, k)) ==> |InvoiceEvents(rows, k)| == |rows|
  {
    if rows != [] {
      var init := rows[..|rows| - 1];
      InvoiceEventsExact(init, k);
      assert forall row :: row in rows <==> row in init || row == rows[|rows| - 1];
    }
  }

  /** Every event lies in the displayed month, and so does every debt it came from. */
  lemma {:induction false} DebtEventsInMonth(debts: seq<Debt>, user: string, now: Time)
    ensures forall e :: e in DebtEvents(debts, user, now) <==>
      exists d :: d in debts && d.userId == user && DebtEventOf(d, now) == Some(e)
    ensures forall e :: e in DebtEvents(debts, user, now) ==> MonthOfDay(e.date) == MonthOfDay(DayOf(now))
  {
    if debts != [] {
      var init := debts[..|debts| - 1];
      DebtEventsInMonth(init, user, now);
      assert forall d :: d in debts <==> d in init || d == debts[|debts| - 1];
      var e := DebtEventOf(debts[|debts| - 1], now);
      if e.Some? {
        InMonthIff(e.value.date, MonthOfDay(DayOf(now)));
      }
    }
  }

  /** A single debt with a date shows only in the month of that date. */
  lemma SingleDebtInItsMonth(debt: Debt, now: Time)
    requires HasSpecificDate(debt) && debt.remainingAmount > 0
    ensures DebtEventOf(debt, now).Some? <==> MonthOfDay(debt.specificDueDate.value) == MonthOfDay(DayOf(now))
  {
    InMonthIff(debt.specificDueDate.value, MonthOfDay(DayOf(now)));
  }

  /**
   * A debt placed by its day of the month shows on that day of the displayed
   * month when the month has it; a day past the month's end rolls into the
   * next month and the debt is not shown at all.
   */
  lemma RecurringDebtPlacement(debt: Debt, now: Time)
    requires !HasSpecificDate(debt) && debt.remainingAmount > 0 && now >= 0
    requires DueDayOrDefault(debt) >= 1
    ensures var k := MonthOfDay(DayOf(now));
      var d := DueDayOrDefault(debt);
      && (d <= MonthLength(k) ==>
            DebtEventOf(debt, now).Some? && DebtEventOf(debt, now).value.date == MonthStart(k) + d - 1
            && DateOfDay(MonthStart(k) + d - 1) == d)
      && (d > MonthLength(k) ==> DebtEventOf(debt, now).None?)
  {
    var k := MonthOfDay(DayOf(now));
    var d := DueDayOrDefault(debt);
    MonthOfDayFromEpoch(DayOf(now));
    JsDateOfMonth(k, d);
    MonthStartStep(k);
    InMonthIff(MonthStart(k) + d - 1, k);
    if d <= MonthLength(k) {
      MonthOfDayUnique(MonthStart(k) + d - 1, k);
    }
  }

  /** The `invoices.forEach` loop: one event per invoice the query returns. */
  method CollectInvoiceEvents(invoices: seq<InvoiceRow>, k: int) returns (newEvents: seq<Event>)
    ensures newEvents == InvoiceEvents(invoices, k)
  {
    newEvents := [];
    var i := 0;
    while i < |invoices|
      invariant 0 <= i <= |invoices|
      invariant newEvents == InvoiceEvents(invoices[..i], k)
    {
      var row := invoices[i];
      if InvoiceInMonth(row, k) {
        newEvents := newEvents + [InvoiceEventOf(row)];
      }
      assert invoices[..i + 1][..i] == invoices[..i];
      i := i + 1;
    }
    assert invoices[..i] == invoices;
  }

  /** The `debts.forEach` loop: place each of the user's debts and keep those inside the month. */
  method CollectDebtEvents(debts: seq<Debt>, user: string, now: Time) returns (newEvents: seq<Event>)
    ensures newEvents == DebtEvents(debts, user, now)
  {
    var k := MonthOfDay(DayOf(now));
    newEvents := [];
    var j := 0;
    while j < |debts|
      invariant 0 <= j <= |debts|
      invariant newEvents == DebtEvents(debts[..j], user, now)
    {
      var debt := debts[j];
      if debt.userId == user {
        var debtDate: Day;
        if debt.debtType == Single && debt.specificDueDate.Some? {
          debtDate := debt.specificDueDate.value;
        } else {
          debtDate := JsDateDay(JsYear(YearOfMonth(k)), Month0OfMonth(k), DueDayOrDefault(debt));
        }
        if MonthStartTime(k) <= Midnight(debtDate) <= MonthEndTime(k) && debt.remainingAmount > 0 {
          newEvents := newEvents + [Event(debt.id, debt.name, debtDate, Some(DebtAmount(debt)), DebtEvent)];
        }
      }
      assert debts[..j + 1][..j] == debts[..j];
      j := j + 1;
    }
    assert debts[..j] == debts;
  }

  /** The page's state: the displayed instant, its events, and the spinner. */
  class CalendarPage {
    var currentDate: Time
    var events: seq<Event>
    var loading: bool

    constructor (now: Time)
      ensures currentDate == now && events == [] && loading
    {
      currentDate := now;
      events := [];
      loading := true;
    }

    /**
     * `fetchEvents`: the spinner is turned on; without a signed-in user it
     * stays on and nothing else changes; otherwise the events of the
     * displayed month replace the old ones and the spinner goes off.
     */
    method FetchEvents(user: Option<string>, invoices: seq<InvoiceRow>, debts: seq<Debt>)
      modifies this
      ensures currentDate == old(currentDate)
      ensures user.None? ==> loading && events == old(events)
      ensures user.Some? ==> !loading && events == Events(user.value, invoices, debts, currentDate)
    {
      loading := true;
      if user.None? {
        return;
      }
      var k := MonthOfDay(DayOf(currentDate));
      var invoiceEvents := CollectInvoiceEvents(invoices, k);
      var debtEvents := CollectDebtEvents(debts, user.value, currentDate);
      var newEvents := invoiceEvents + debtEvents;
      events := newEvents;
      loading := false;
    }

    /** The month arrows: `addMonths(currentDate, ±1)`, keeping the time of day. */
    method ShiftMonth(amount: int)
      requires amount == 1 || amount == -1
      modifies this
      ensures MonthOfDay(DayOf(currentDate)) == MonthOfDay(DayOf(old(currentDate))) + amount
      ensures TimeOfDay(currentDate) == TimeOfDay(old(currentDate))
      ensures events == old(events) && loading == old(loading)
    {
      var day := AddMonths(DayOf(currentDate), amount);
      DayOfMidnightPlus(day, TimeOfDay(currentDate));
      currentDate := Midnight(day) + TimeOfDay(currentDate);
    }
  }

  // ---------------------------------------------------------------------
  // The month grid

  /** `eachDayOfInterval` over month k: its days, first to last. */
  function DaysOfMonth(k: int): (r: seq<Day>)
    ensures |r| == MonthLength(k)
    ensures forall i :: 0 <= i < |r| ==> r[i] == MonthStart(k) + i
  {
    MonthStartStep(k);
    DaysFrom(MonthStart(k), MonthLength(k))
  }

  function DaysFrom(first: Day, n: nat): (r: seq<Day>)
    ensures |r| == n
    ensures forall i :: 0 <= i < n ==> r[i] == first + i
  {
    if n == 0 then [] else DaysFrom(first, n - 1) + [first + n - 1]
  }

  /** A grid cell: a blank for alignment, or a day with its events. */
  datatype Cell = Blank | DayCell(day: Day, events: seq<Event>)

  /** `events.filter(e => isSameDay(e.date, day))`. */
  function EventsOn(events: seq<Event>, day: Day): (r: seq<Event>)
    ensures forall e :: e in r <==> e in events && e.date == day
  {
    if events == [] then []
    else
      var last := events[|events| - 1];
      assert forall e :: e in events <==> e in events[..|events| - 1] || e == last;
      EventsOn(events[..|events| - 1], day) + if last.date == day then [last] else []
  }

  function Blanks(n: nat): (r: seq<Cell>)
    ensures |r| == n && forall i :: 0 <= i < n ==> r[i] == Blank
  {
    if n == 0 then [] else Blanks(n - 1) + [Blank]
  }

  function DayCells(days: seq<Day>, events: seq<Event>): (r: seq<Cell>)
    ensures |r| == |days|
    ensures forall i :: 0 <= i < |days| ==> r[i] == DayCell(days[i], EventsOn(events, days[i]))
  {
    if days == [] then []
    else DayCells(days[..|days| - 1], events) + [DayCell(days[|days| - 1], EventsOn(events, days[|days| - 1]))]
  }

  /** The grid under the weekday header: `getDay()` of the first as blanks, then the days. */
  function Grid(k: int, events: seq<Event>): seq<Cell> {
    GridFrom(MonthStart(k), MonthLength(k), events)
  }

  /** The grid of the `n` days from `first` on. */
  function GridFrom(first: Day, n: nat, events: seq<Event>): seq<Cell> {
    Blanks(Weekday(first)) + DayCells(DaysFrom(first, n), events)
  }

  /** Day `first + j` sits in column (weekday of `first` + j) mod 7 of a seven-column grid. */
  lemma WeekdayColumn(first: Day, j: int)
    requires j >= 0
    ensures (Weekday(first) + j) % 7 == Weekday(first + j)
  {
    var q := (first + 4) / 7;
    assert first + 4 == 7 * q + Weekday(first);
    assert first + j + 4 == 7 * q + (Weekday(first) + j);
  }

  /** Cell i of the grid: a blank before the first day's weekday, then day i - blanks. */
  lemma GridCell(first: Day, n: nat, events: seq<Event>, i: int)
    requires 0 <= i < Weekday(first) + n
    ensures var b := Weekday(first);
      var g := GridFrom(first, n, events);
      && |g| == b + n
      && (i < b ==> g[i] == Blank)
      && (b <= i ==> g[i] == DayCell(first + i - b, EventsOn(events, first + i - b)))
  {
    var b := Weekday(first);
    var blanks := Blanks(b);
    var cells := DayCells(DaysFrom(first, n), events);
    if b <= i {
      assert (blanks + cells)[i] == cells[i - b];
    }
  }

  /**
   * The grid of `n` days from `first` has the first day's weekday (Sunday =
   * 0) in blanks, then one cell per day, in order, each holding exactly the
   * events of that day and sitting in the column of its own weekday.
   */
  lemma GridFromLayout(first: Day, n: nat, events: seq<Event>)
    ensures var g := GridFrom(first, n, events);
      var b := Weekday(first);
      && |g| == b + n
      && (forall i :: 0 <= i < b ==> g[i] == Blank)
      && (forall i :: b <= i < |g| ==>
            && g[i].DayCell?
            && g[i].day == first + i - b
            && i % 7 == Weekday(g[i].day)
            && (forall e :: e in g[i].events <==> e in events && e.date == g[i].day))
  {
    var g := GridFrom(first, n, events);
    var b := Weekday(first);
    forall i | 0 <= i < |g|
      ensures i < b ==> g[i] == Blank
      ensures b <= i ==> g[i].DayCell? && g[i].day == first + i - b && i % 7 == Weekday(g[i].day)
    {
      GridCell(first, n, events, i);
      if b <= i {
        WeekdayColumn(first, i - b);
      }
    }
  }

  /**
   * The month grid: the first day's weekday in blanks, then the days of the
   * month from the 1st on, each in the column of its weekday and holding
   * exactly the events of that day.
   */
  lemma GridLayout(k: int, events: seq<Event>)
    ensures var g := Grid(k, events);
      var b := Weekday(MonthStart(k));
      && |g| == b + MonthLength(k)
      && (forall i :: 0 <= i < b ==> g[i] == Blank)
      && (forall i :: b <= i < |g| ==>
            && g[i].DayCell?
            && MonthOfDay(g[i].day) == k
            && DateOfDay(g[i].day) == i - b + 1
            && i % 7 == Weekday(g[i].day)
            && (forall e :: e in g[i].events <==> e in events && e.date == g[i].day))
  {
    var g := Grid(k, events);
    var b := Weekday(MonthStart(k));
    GridFromLayout(MonthStart(k), MonthLength(k), events);
    forall i | b <= i < |g|
      ensures MonthOfDay(g[i].day) == k && DateOfDay(g[i].day) == i - b + 1
    {
      var d := g[i].day;
      assert MonthStart(k) <= d < MonthStart(k + 1) by { MonthStartStep(k); }
      DayInMonth(d, k);
    }
  }
}
