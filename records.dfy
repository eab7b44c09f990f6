/**
 * Rows of the finance tables the pages read and write (credit_cards,
 * invoices, debts), with amounts in integer cents and dates as `Day`s.
 */
module Records {
  import opened Wrappers
  import opened Dates

  datatype CreditCard = CreditCard(
    id: string,
    name: string,
    closingDay: int,
    dueDay: int,
    limitAmount: Option<int>,
    userId: string)

  /** `invoices.status`; a null status reads as `Unset`. */
  datatype InvoiceStatus = Open | Overdue | Paid | Unset

  datatype Invoice = Invoice(
    id: string,
    creditCardId: string,
    month: int,
    year: int,
    amount: Option<int>,
    dueDate: Option<Day>,
    closingDate: Option<Day>,
    status: InvoiceStatus)

  /** An invoice row joined with its card's name (`select('*, credit_cards(...)')`). */
  datatype InvoiceRow = InvoiceRow(invoice: Invoice, cardName: string)

  /**
   * `debts.debt_type`: `'recurring'`, `'single'`, or `Untyped` for null or
   * any other stored text. The pages place a debt by testing `=== 'single'`,
   * so they treat `Untyped` like `Recurring`; the debt forms write the day
   * only for `=== 'recurring'`, so saving clears an `Untyped` debt's day.
   */
  datatype DebtType = Recurring | Single | Untyped

  datatype Debt = Debt(
    id: string,
    name: string,
    debtType: DebtType,
    totalAmount: int,
    remainingAmount: int,
    minimumPayment: Option<int>,
    dueDay: Option<int>,
    specificDueDate: Option<Day>,
    userId: string)

  /** `debt.due_day || 10`: a missing or zero day means the 10th. */
  function DueDayOrDefault(debt: Debt): (d: int)
    ensures d != 0
    ensures debt.dueDay.Some? && debt.dueDay.value != 0 ==> d == debt.dueDay.value
    ensures debt.dueDay.None? || debt.dueDay.value == 0 ==> d == 10
  {
    if debt.dueDay.Some? && debt.dueDay.value != 0 then debt.dueDay.value else 10
  }

  /** Single debts with a date use that date; every other debt is placed by its day of the month. */
  predicate HasSpecificDate(debt: Debt) {
    debt.debtType == Single && debt.specificDueDate.Some?
  }

  /** The amount a page shows for a debt: the total for a single debt, else `minimum_payment || 0`. */
  function DebtAmount(debt: Debt): int {
    if debt.debtType == Single then debt.totalAmount else debt.minimumPayment.GetOr(0)
  }
}
