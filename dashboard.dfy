/**
 * The dashboard's upcoming payments: the invoices due within thirty days,
 * the debts projected to their next due date and kept when that date falls
 * within thirty days, all sorted by due date, with the count of the urgent
 * ones; and the colour and text each payment is shown with.
 */
module Dashboard {
  import opened Wrappers
  import opened Dates
  import opened Text
  import opened Records

  datatype PaymentKind = InvoicePayment | DebtPayment(isSingle: bool)

  /** An `UpcomingPayment`: the due date is a calendar day (its UTC midnight when compared). */
  datatype Payment = Payment(id: string, name: string, amount: Option<int>, due: Day, kind: PaymentKind)

  const WindowDays: int := 30
  const UrgentDays: int := 3

  /** `due >= today && due <= addDays(today, 30)`, on the due day's midnight. */
  predicate InWindow(due: Day, now: Time) {
    now <= Midnight(due) <= AddDays(now, WindowDays)
  }

  /**
   * The same window as the invoice query applies it: `due_date` is a `date`
   * column, so the two ISO instants it is compared with are cast to their
   * (UTC) dates, and the window is counted in whole days.
   */
  predicate InDayWindow(due: Day, now: Time) {
    DayOf(now) <= due <= DayOf(AddDays(now, WindowDays))
  }

  /**
   * The day window is the instant window plus today: an invoice due today
   * stays listed all day, while a debt projected onto today's midnight is
   * dropped once now is past it.
   */
  lemma DayWindowKeepsToday(due: Day, now: Time)
    ensures InDayWindow(due, now) <==> InWindow(due, now) || due == DayOf(now)
    ensures DayOf(AddDays(now, WindowDays)) == DayOf(now) + WindowDays
  {
    var q, r := DayOf(now), TimeOfDay(now);
    assert now == q * MsPerDay + r;
    assert AddDays(now, WindowDays) == (q + WindowDays) * MsPerDay + r;
    DivOfMultiplePlus(q + WindowDays, r);
    MidnightBefore(due, now);
    if due <= q + WindowDays {
      assert Midnight(due) <= Midnight(q + WindowDays) by {
        assert Midnight(q + WindowDays) - Midnight(due) == (q + WindowDays - due) * MsPerDay;
      }
    } else {
      assert Midnight(due) >= Midnight(q + WindowDays + 1) by {
        assert Midnight(due) - Midnight(q + WindowDays + 1) == (due - q - WindowDays - 1) * MsPerDay;
      }
    }
  }

  // ---------------------------------------------------------------------
  // Invoices

  /** The invoice query: due within the day window and open or overdue. */
  predicate InvoiceSelected(row: InvoiceRow, now: Time) {
    && row.invoice.dueDate.Some?
    && InDayWindow(row.invoice.dueDate.value, now)
    && (row.invoice.status == Open || row.invoice.status == Overdue)
  }

  function InvoicePaymentOf(row: InvoiceRow): Payment
    requires row.invoice.dueDate.Some?
  {
    Payment(row.invoice.id, row.cardName, row.invoice.amount, row.invoice.dueDate.value, InvoicePayment)
  }

  /** The payments the invoice loop pushes, for the rows the query returns, in their order. */
  function InvoicePayments(rows: seq<InvoiceRow>, now: Time): (r: seq<Payment>)
    ensures forall p :: p in r <==> exists row :: row in rows && InvoiceSelected(row, now) && p == InvoicePaymentOf(row)
  {
    if rows == [] then []
    else
      var last := rows[|rows| - 1];
      var init := InvoicePayments(rows[..|rows| - 1], now);
      assert forall row :: row in rows <==> row in rows[..|rows| - 1] || row == last;
      if InvoiceSelected(last, now) then init + [InvoicePaymentOf(last)] else init
  }

  // ---------------------------------------------------------------------
  // Debts

  /** The debt query: the user's debts with something left to pay. */
  predicate DebtSelected(debt: Debt, user: string) {
    debt.userId == user && debt.remainingAmount > 0
  }

  /**
   * The first candidate for a debt without a date: `due_day || 10` of the
   * current month, by `new Date(year, month, day)`.
   */
  function RecurringCandidate(debt: Debt, now: Time): Day {
    var k := MonthOfDay(DayOf(now));
    JsDateDay(JsYear(YearOfMonth(k)), Month0OfMonth(k), DueDayOrDefault(debt))
  }

  /**
   * `nextDueDate`: the specific date of a single debt that has one;
   * otherwise the candidate, moved one month on (`addMonths`) when its
   * midnight is earlier than now.
   */
  function NextDueDate(debt: Debt, now: Time): Day {
    if HasSpecificDate(debt) then debt.specificDueDate.value
    else
      var candidate := RecurringCandidate(debt, now);
      if Midnight(candidate) < now then AddMonths(candidate, 1) else candidate
  }

  /** The payment a debt contributes, if its next due date is within the window. */
  function DebtPaymentOf(debt: Debt, now: Time): (r: Option<Payment>)
    ensures r.Some? <==> InWindow(NextDueDate(debt, now), now)
    ensures r.Some? ==> r.value == Payment(debt.id, debt.name, Some(DebtAmount(debt)), NextDueDate(debt, now),
                                           DebtPayment(debt.debtType == Single))
  {
    var due := NextDueDate(debt, now);
    if InWindow(due, now) then Some(Payment(debt.id, debt.name, Some(DebtAmount(debt)), due, DebtPayment(debt.debtType == Single)))
    else None
  }

  /** The payments the debt loop pushes, for the debts the query returns, in their order. */
  function DebtPayments(debts: seq<Debt>, user: string, now: Time): (r: seq<Payment>)
    ensures forall p :: p in r <==>
      exists d :: d in debts && DebtSelected(d, user) && DebtPaymentOf(d, now) == Some(p)
  {
    if debts == [] then []
    else
      var last := debts[|debts| - 1];
      var init := DebtPayments(debts[..|debts| - 1], user, now);
      assert forall d :: d in debts <==> d in debts[..|debts| - 1] || d == last;
      if DebtSelected(last, user) && DebtPaymentOf(last, now).Some? then init + [DebtPaymentOf(last, now).value]
      else init
  }

  /** A single debt with a date is due on that very date. */
  lemma SingleDueVerbatim(debt: Debt, now: Time)
    requires debt.debtType == Single && debt.specificDueDate.Some?
    ensures NextDueDate(debt, now) == debt.specificDueDate.value
  {
  }

  /**
   * A recurring debt (or a single one without a date) with a due day D that
   * exists in the current month is due on day D of this month while that
   * midnight has not passed, and otherwise on day D (clamped) of the next
   * month; either way never before now.
   */
  lemma RecurringProjection(debt: Debt, now: Time)
    requires !HasSpecificDate(debt) && now >= 0
    requires 1 <= DueDayOrDefault(debt) <= MonthLength(MonthOfDay(DayOf(now)))
    ensures var k := MonthOfDay(DayOf(now));
      var dueDay := DueDayOrDefault(debt);
      var thisMonth := MonthStart(k) + dueDay - 1;
      var due := NextDueDate(debt, now);
      && (now <= Midnight(thisMonth) ==> due == thisMonth)
      && (Midnight(thisMonth) < now ==>
            MonthOfDay(due) == k + 1 && DateOfDay(due) == Min(dueDay, MonthLength(k + 1)))
      && now <= Midnight(due)
  {
    var k := MonthOfDay(DayOf(now));
    var thisMonth := MonthStart(k) + DueDayOrDefault(debt) - 1;
    if Midnight(thisMonth) < now {
      MovedToNextMonth(debt, now, k, thisMonth);
    } else {
      StaysThisMonth(debt, now, k, thisMonth);
    }
  }

  /** The case of `RecurringProjection` where this month's day is still ahead. */
  lemma StaysThisMonth(debt: Debt, now: Time, k: int, thisMonth: Day)
    requires !HasSpecificDate(debt) && now >= 0
    requires k == MonthOfDay(DayOf(now)) && thisMonth == MonthStart(k) + DueDayOrDefault(debt) - 1
    requires now <= Midnight(thisMonth)
    ensures NextDueDate(debt, now) == thisMonth
  {
    CandidateInThisMonth(debt, now);
  }

  /** The case of `RecurringProjection` where this month's day has passed. */
  lemma MovedToNextMonth(debt: Debt, now: Time, k: int, thisMonth: Day)
    requires !HasSpecificDate(debt) && now >= 0
    requires 1 <= DueDayOrDefault(debt) <= MonthLength(k)
    requires k == MonthOfDay(DayOf(now)) && thisMonth == MonthStart(k) + DueDayOrDefault(debt) - 1
    requires Midnight(thisMonth) < now
    ensures NextDueDate(debt, now) == AddMonths(thisMonth, 1)
    ensures MonthOfDay(AddMonths(thisMonth, 1)) == k + 1
    ensures DateOfDay(AddMonths(thisMonth, 1)) == Min(DueDayOrDefault(debt), MonthLength(k + 1))
    ensures now <= Midnight(AddMonths(thisMonth, 1))
  {
    assert NextDueDate(debt, now) == AddMonths(thisMonth, 1) by { CandidateInThisMonth(debt, now); }
    assert MonthStart(k) <= thisMonth < MonthStart(k + 1) by { MonthStartStep(k); }
    AddMonthFrom(thisMonth, k);
    NextMonthIsLater(AddMonths(thisMonth, 1), now);
  }

  /** For a debt placed by its day, the first candidate is that day of the current month (past the 0..99 years). */
  lemma CandidateInThisMonth(debt: Debt, now: Time)
    requires now >= 0
    ensures var k := MonthOfDay(DayOf(now));
      RecurringCandidate(debt, now) == MonthStart(k) + DueDayOrDefault(debt) - 1
  {
    var k := MonthOfDay(DayOf(now));
    MonthOfDayFromEpoch(DayOf(now));
    JsDateOfMonth(k, DueDayOrDefault(debt));
  }

  /** A day of the month after the current one has its midnight after now. */
  lemma NextMonthIsLater(due: Day, now: Time)
    requires MonthOfDay(due) == MonthOfDay(DayOf(now)) + 1
    ensures now <= Midnight(due)
  {
    assert DayOf(now) < due;
    MidnightBefore(due, now);
  }

  /**
   * Because now is an instant and not a midnight, a due day equal to
   * today's date moves to next month as soon as now is past midnight.
   */
  lemma DueTodayMovesOn(debt: Debt, now: Time)
    requires !HasSpecificDate(debt) && now >= 0
    requires DueDayOrDefault(debt) == DateOfDay(DayOf(now)) && TimeOfDay(now) > 0
    ensures NextDueDate(debt, now) == AddMonths(DayOf(now), 1)
  {
    var k := MonthOfDay(DayOf(now));
    MonthOfDayFromEpoch(DayOf(now));
    JsDateOfMonth(k, DueDayOrDefault(debt));
    assert RecurringCandidate(debt, now) == DayOf(now);
    MidnightBefore(DayOf(now), now);
  }

  /** The listed amount: the total of a single debt, the minimum payment (or 0) of any other. */
  lemma DebtAmountChoice(debt: Debt, now: Time)
    requires DebtPaymentOf(debt, now).Some?
    ensures var p := DebtPaymentOf(debt, now).value;
      && (debt.debtType == Single ==> p.amount == Some(debt.totalAmount))
      && (debt.debtType != Single ==> p.amount == Some(if debt.minimumPayment.Some? then debt.minimumPayment.value else 0))
  {
  }

  // ---------------------------------------------------------------------
  // Sorting by due date (`Array.prototype.sort`, stable)

  predicate SortedByDue(s: seq<Payment>) {
    forall i, j :: 0 <= i < j < |s| ==> s[i].due <= s[j].due
  }

  /** Put `p` after every element due no later than it. */
  function Insert(s: seq<Payment>, p: Payment): (r: seq<Payment>)
    ensures |r| == |s| + 1
  {
    if s == [] || s[|s| - 1].due <= p.due then s + [p]
    else Insert(s[..|s| - 1], p) + [s[|s| - 1]]
  }

  /** The elements due on `due`, in order. */
  function DueOn(s: seq<Payment>, due: Day): (r: seq<Payment>)
    ensures |r| <= |s|
  {
    if s == [] then []
    else DueOn(s[..|s| - 1], due) + (if s[|s| - 1].due == due then [s[|s| - 1]] else [])
  }

  lemma {:induction false} DueOnAppend(a: seq<Payment>, b: seq<Payment>, due: Day)
    ensures DueOn(a + b, due) == DueOn(a, due) + DueOn(b, due)
    decreases |b|
  {
    if b == [] {
      assert a + b == a;
    } else {
      var b' := b[..|b| - 1];
      assert (a + b)[..|a + b| - 1] == a + b';
      assert (a + b)[|a + b| - 1] == b[|b| - 1];
      DueOnAppend(a, b', due);
    }
  }

  /** Inserting into a sorted list keeps it sorted. */
  lemma {:induction false} InsertSorted(s: seq<Payment>, p: Payment)
    requires SortedByDue(s)
    ensures SortedByDue(Insert(s, p))
    ensures forall q :: q in Insert(s, p) <==> q in s || q == p
    decreases |s|
  {
    if s != [] && s[|s| - 1].due > p.due {
      var init := s[..|s| - 1];
      InsertSorted(init, p);
      var r := Insert(s, p);
      assert forall q :: q in s <==> q in init || q == s[|s| - 1];
      forall i, j | 0 <= i < j < |r| ensures r[i].due <= r[j].due {
        if j == |r| - 1 {
          assert r[i] in Insert(init, p);
        }
      }
    }
  }

  /** Insertion adds exactly `p`. */
  lemma {:induction false} InsertMultiset(s: seq<Payment>, p: Payment)
    ensures multiset(Insert(s, p)) == multiset(s) + multiset{p}
    decreases |s|
  {
    if s != [] && s[|s| - 1].due > p.due {
      var init := s[..|s| - 1];
      InsertMultiset(init, p);
      assert s == init + [s[|s| - 1]];
    }
  }

  /** `p` lands after every element due on its own day: insertion is stable. */
  lemma {:induction false} InsertStable(s: seq<Payment>, p: Payment, due: Day)
    ensures DueOn(Insert(s, p), due) == DueOn(s, due) + (if p.due == due then [p] else [])
    decreases |s|
  {
    if s == [] || s[|s| - 1].due <= p.due {
      DueOnAppend(s, [p], due);
    } else {
      var init := s[..|s| - 1];
      var last := s[|s| - 1];
      InsertStable(init, p, due);
      var r := Insert(s, p);
      assert r[..|r| - 1] == Insert(init, p);
      if p.due == due {
        assert last.due != due;
      }
    }
  }

  /** `payments.sort((a, b) => a.due - b.due)`, by insertion. */
  function SortByDue(s: seq<Payment>): (r: seq<Payment>)
    ensures |r| == |s|
  {
    if s == [] then [] else Insert(SortByDue(s[..|s| - 1]), s[|s| - 1])
  }

  /** The sort's result is ordered by due date. */
  lemma {:induction false} SortByDueSorted(s: seq<Payment>)
    ensures SortedByDue(SortByDue(s))
  {
    if s != [] {
      SortByDueSorted(s[..|s| - 1]);
      InsertSorted(SortByDue(s[..|s| - 1]), s[|s| - 1]);
    }
  }

  /** The sort's result is a permutation of its input. */
  lemma {:induction false} SortByDuePermutation(s: seq<Payment>)
    ensures multiset(SortByDue(s)) == multiset(s)
  {
    if s != [] {
      var init := s[..|s| - 1];
      var last := s[|s| - 1];
      SortByDuePermutation(init);
      InsertMultiset(SortByDue(init), last);
      assert s == init + [last];
    }
  }

  /** Payments due on the same day keep their relative order. */
  lemma {:induction false} SortByDueStable(s: seq<Payment>, due: Day)
    ensures DueOn(SortByDue(s), due) == DueOn(s, due)
  {
    if s != [] {
      var init := s[..|s| - 1];
      SortByDueStable(init, due);
      InsertStable(SortByDue(init), s[|s| - 1], due);
    }
  }

  /**
   * The sort is sorted, a permutation of its input, and stable: payments
   * due on the same day keep their relative order.
   */
  lemma SortByDueSpec(s: seq<Payment>)
    ensures SortedByDue(SortByDue(s))
    ensures multiset(SortByDue(s)) == multiset(s)
    ensures forall due :: DueOn(SortByDue(s), due) == DueOn(s, due)
  {
    SortByDueSorted(s);
    SortByDuePermutation(s);
    forall due ensures DueOn(SortByDue(s), due) == DueOn(s, due) {
      SortByDueStable(s, due);
    }
  }

  // ---------------------------------------------------------------------
  // Urgency

  /** `differenceInDays(new Date(due), now)`: whole days from now to the due day's midnight. */
  function DaysUntil(due: Day, now: Time): int {
    DifferenceInDays(Midnight(due), now)
  }

  predicate Urgent(p: Payment, now: Time) {
    DaysUntil(p.due, now) <= UrgentDays
  }

  /** `payments.filter(p => differenceInDays(...) <= 3).length`. */
  function UrgentCount(s: seq<Payment>, now: Time): (n: nat)
    ensures n <= |s|
  {
    if s == [] then 0 else UrgentCount(s[..|s| - 1], now) + (if Urgent(s[|s| - 1], now) then 1 else 0)
  }

  /** In a list sorted by due date the urgent payments come first: the count is the length of that prefix. */
  lemma {:induction false} UrgentArePrefix(s: seq<Payment>, now: Time)
    requires SortedByDue(s)
    ensures var n := UrgentCount(s, now);
      && (forall i :: 0 <= i < n ==> Urgent(s[i], now))
      && (forall i :: n <= i < |s| ==> !Urgent(s[i], now))
  {
    if s != [] {
      var init := s[..|s| - 1];
      UrgentArePrefix(init, now);
      var m := UrgentCount(init, now);
      var last := s[|s| - 1];
      if Urgent(last, now) {
        forall i | 0 <= i < |s| - 1 ensures Urgent(s[i], now) {
          DifferenceInDaysMonotone(Midnight(s[i].due), Midnight(last.due), now);
        }
      }
    }
  }

  datatype Urgency = Red | Orange | Yellow | Green

  /** `getUrgencyColor`, on the whole-day difference. */
  function UrgencyColor(days: int): (c: Urgency)
    ensures c == Red <==> days < 0
    ensures c == Orange <==> 0 <= days <= 3
    ensures c == Yellow <==> 4 <= days <= 7
    ensures c == Green <==> days > 7
  {
    if days < 0 then Red
    else if days <= 3 then Orange
    else if days <= 7 then Yellow
    else Green
  }

  const OverdueText: string := "Vencido!"
  const TodayText: string := "Vence HOJE!"
  const TomorrowText: string := "Vence amanhã"

  /** `getDaysText`, on the whole-day difference. */
  function DaysText(days: int): string {
    if days < 0 then OverdueText
    else if days == 0 then TodayText
    else if days == 1 then TomorrowText
    else IntText(days) + " dias"
  }

  /** Texts tell the days apart: two differences from 0 on get the same text only if they are equal. */
  lemma DaysTextInjective(a: int, b: int)
    requires a >= 0 && b >= 0 && DaysText(a) == DaysText(b)
    ensures a == b
  {
    if a >= 2 && b >= 2 {
      var ta, tb := NatText(a), NatText(b);
      assert |ta| == |tb| by {
        assert |DaysText(a)| == |ta| + 5 && |DaysText(b)| == |tb| + 5;
      }
      assert ta == DaysText(a)[..|ta|] && tb == DaysText(b)[..|tb|];
      NatTextInjective(a, b);
    } else if a >= 2 {
      DaysTextPlural(a);
    } else if b >= 2 {
      DaysTextPlural(b);
    }
  }

  /** From two days on the text ends in "dias", unlike the three fixed texts. */
  lemma DaysTextPlural(days: int)
    requires days >= 2
    ensures var t := DaysText(days);
      t != OverdueText && t != TodayText && t != TomorrowText && t[|t| - 1] == 's'
  {
    var t := DaysText(days);
    assert t[|t| - 1] == 's';
  }

  /** An invoice due today, listed after midnight too, reads "Vence HOJE!" in orange all day. */
  lemma DueTodayReadsToday(due: Day, now: Time)
    requires due == DayOf(now)
    ensures DaysText(DaysUntil(due, now)) == TodayText && UrgencyColor(DaysUntil(due, now)) == Orange
  {
    DaysUntilMidnight(due, now);
  }

  /**
   * For a listed payment (due no earlier than now), the text reads "Vence
   * HOJE!" exactly when the due day is tomorrow and now is past midnight,
   * or it is today and now is exactly midnight.
   */
  lemma TodayMeansTomorrowAfterMidnight(due: Day, now: Time)
    requires now <= Midnight(due)
    ensures DaysText(DaysUntil(due, now)) == TodayText <==>
      (due == DayOf(now) + 1 && TimeOfDay(now) > 0) || (due == DayOf(now) && TimeOfDay(now) == 0)
  {
    DaysUntilMidnight(due, now);
    MidnightBefore(due, now);
    var days := DaysUntil(due, now);
    if days >= 2 {
      DaysTextPlural(days);
    }
  }

  // ---------------------------------------------------------------------
  // fetchDashboardData

  /** The payments collected before the sort: the invoices' first, then the debts'. */
  function Collected(user: string, invoices: seq<InvoiceRow>, debts: seq<Debt>, now: Time): seq<Payment> {
    InvoicePayments(invoices, now) + DebtPayments(debts, user, now)
  }

  /**
   * Every listed payment is due within the thirty days (a debt within the
   * instant window, an invoice within the day window), and every selected
   * invoice and debt due within it is listed.
   */
  lemma CollectedInWindow(user: string, invoices: seq<InvoiceRow>, debts: seq<Debt>, now: Time)
    ensures forall p :: p in Collected(user, invoices, debts, now) ==> InDayWindow(p.due, now)
    ensures forall p :: p in Collected(user, invoices, debts, now) && p.kind.DebtPayment? ==> InWindow(p.due, now)
    ensures forall row :: row in invoices && InvoiceSelected(row, now) ==>
              InvoicePaymentOf(row) in Collected(user, invoices, debts, now)
    ensures forall d :: d in debts && DebtSelected(d, user) && InWindow(NextDueDate(d, now), now) ==>
              DebtPaymentOf(d, now).value in Collected(user, invoices, debts, now)
  {
    forall p | p in Collected(user, invoices, debts, now) ensures InDayWindow(p.due, now) {
      DayWindowKeepsToday(p.due, now);
    }
  }

  /** The loop over the invoices the query returns. */
  method CollectInvoicePayments(invoices: seq<InvoiceRow>, now: Time) returns (payments: seq<Payment>)
    ensures payments == InvoicePayments(invoices, now)
  {
    payments := [];
    var i := 0;
    while i < |invoices|
      invariant 0 <= i <= |invoices|
      invariant payments == InvoicePayments(invoices[..i], now)
    {
      var row := invoices[i];
      if InvoiceSelected(row, now) {
        payments := payments + [InvoicePaymentOf(row)];
      }
      assert invoices[..i + 1][..i] == invoices[..i];
      i := i + 1;
    }
    assert invoices[..i] == invoices;
  }

  /** The loop over the debts: project each selected debt's next due date and keep it when inside the window. */
  method CollectDebtPayments(debts: seq<Debt>, user: string, now: Time) returns (payments: seq<Payment>)
    ensures payments == DebtPayments(debts, user, now)
  {
    payments := [];
    var j := 0;
    while j < |debts|
      invariant 0 <= j <= |debts|
      invariant payments == DebtPayments(debts[..j], user, now)
    {
      var debt := debts[j];
      if DebtSelected(debt, user) {
        var nextDueDate: Day;
        if debt.debtType == Single && debt.specificDueDate.Some? {
          nextDueDate := debt.specificDueDate.value;
        } else {
          nextDueDate := RecurringCandidate(debt, now);
          if Midnight(nextDueDate) < now {
            nextDueDate := AddMonths(nextDueDate, 1);
          }
        }
        if now <= Midnight(nextDueDate) && Midnight(nextDueDate) <= AddDays(now, WindowDays) {
          payments := payments + [Payment(debt.id, debt.name, Some(DebtAmount(debt)), nextDueDate,
                                          DebtPayment(debt.debtType == Single))];
        }
      }
      assert debts[..j + 1][..j] == debts[..j];
      j := j + 1;
    }
    assert debts[..j] == debts;
  }

  /** The page's state: `upcomingPayments` and `urgentCount`. */
  class DashboardPage {
    var upcoming: seq<Payment>
    var urgentCount: nat

    constructor ()
      ensures upcoming == [] && urgentCount == 0
    {
      upcoming := [];
      urgentCount := 0;
    }

    /**
     * `fetchDashboardData`: without a signed-in user nothing changes;
     * otherwise the state becomes the sorted payments and their urgent
     * count. `invoices` and `debts` are the tables as the queries see them.
     */
    method FetchDashboardData(user: Option<string>, invoices: seq<InvoiceRow>, debts: seq<Debt>, now: Time)
      modifies this
      ensures user.None? ==> upcoming == old(upcoming) && urgentCount == old(urgentCount)
      ensures user.Some? ==>
        && upcoming == SortByDue(Collected(user.value, invoices, debts, now))
        && urgentCount == UrgentCount(upcoming, now)
    {
      if user.None? {
        return;
      }
      var invoicePayments := CollectInvoicePayments(invoices, now);
      var debtPayments := CollectDebtPayments(debts, user.value, now);
      var payments := invoicePayments + debtPayments;
      upcoming := SortByDue(payments);
      urgentCount := UrgentCount(upcoming, now);
    }
  }
}
