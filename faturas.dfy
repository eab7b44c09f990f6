/**
 * The accounts page's record builders: the debt row inserted by the "new
 * debt" form and the one written back by the edit form, the invoice row
 * added for a card and a month, the month choices of that form, and the
 * due-date line shown under each debt.
 */
module Faturas {
  import opened Wrappers
  import opened Dates
  import opened Text
  import opened Records

  // ---------------------------------------------------------------------
  // Debts

  /** The "new debt" form; an empty date field is `None`. */
  datatype DebtForm = DebtForm(
    name: string,
    totalAmount: int,
    remainingAmount: int,
    minimumPayment: int,
    dueDay: int,
    debtType: DebtType,
    specificDueDate: Option<Day>)

  /**
   * The row `handleAddDebt` inserts for `user`; `id` is the one the table
   * assigns.
   */
  function NewDebtRow(id: string, user: string, form: DebtForm): Debt {
    Debt(id, form.name, form.debtType, form.totalAmount,
         if form.remainingAmount != 0 then form.remainingAmount else form.totalAmount,
         Some(form.minimumPayment),
         if form.debtType == Recurring then Some(form.dueDay) else None,
         if form.debtType == Single then form.specificDueDate else None,
         user)
  }

  /**
   * A new debt owes the entered remaining amount, or the whole total when
   * that was left at zero; a recurring debt gets a day of the month and no
   * date, a single debt a date and no day, never both; and the pages place
   * it by the entered day (the 10th for day 0) or by its date.
   */
  lemma NewDebtShape(id: string, user: string, form: DebtForm)
    ensures var r := NewDebtRow(id, user, form);
      && r.id == id && r.userId == user && r.name == form.name && r.debtType == form.debtType
      && r.totalAmount == form.totalAmount
      && r.remainingAmount == (if form.remainingAmount == 0 then form.totalAmount else form.remainingAmount)
      && !(r.dueDay.Some? && r.specificDueDate.Some?)
      && (r.debtType == Recurring <==> r.dueDay.Some?)
      && (HasSpecificDate(r) <==> form.debtType == Single && form.specificDueDate.Some?)
      && (form.debtType == Recurring ==> DueDayOrDefault(r) == if form.dueDay == 0 then 10 else form.dueDay)
      && (HasSpecificDate(r) ==> r.specificDueDate == form.specificDueDate)
  {
  }

  /**
   * The row after `handleEditDebt`: the edited fields written over the row
   * with the edited id, the owner kept; the day or the date is cleared by
   * the debt's type, and the remaining amount is taken as it is.
   */
  function UpdatedDebt(row: Debt, edited: Debt): Debt {
    Debt(row.id, edited.name, edited.debtType, edited.totalAmount, edited.remainingAmount, edited.minimumPayment,
         if edited.debtType == Recurring then edited.dueDay else None,
         if edited.debtType == Single then edited.specificDueDate else None,
         row.userId)
  }

  /**
   * Editing keeps the debt's identity and owner, never leaves both a day and
   * a date, and, unlike adding, does not replace a zero remaining amount
   * by the total. A debt of neither type loses both its day and its date,
   * so the pages then place it on the 10th.
   */
  lemma EditShape(row: Debt, edited: Debt)
    ensures var r := UpdatedDebt(row, edited);
      && r.id == row.id && r.userId == row.userId
      && r.remainingAmount == edited.remainingAmount
      && !(r.dueDay.Some? && r.specificDueDate.Some?)
      && (r.debtType == Single ==> r.dueDay.None? && r.specificDueDate == edited.specificDueDate)
      && (r.debtType == Recurring ==> r.specificDueDate.None? && r.dueDay == edited.dueDay)
      && (r.debtType == Untyped ==> r.dueDay.None? && r.specificDueDate.None? && DueDayOrDefault(r) == 10)
  {
  }

  /** The two forms treat a zero remaining amount differently. */
  lemma ZeroRemainingAddVersusEdit(id: string, user: string, form: DebtForm, row: Debt, edited: Debt)
    requires form.remainingAmount == 0 && edited.remainingAmount == 0
    ensures NewDebtRow(id, user, form).remainingAmount == form.totalAmount
    ensures UpdatedDebt(row, edited).remainingAmount == 0
  {
  }

  /** Typing a value into a single debt's edit form: both the total and the remaining amount take it. */
  function EditSingleValue(edited: Debt, value: int): Debt {
    edited.(totalAmount := value, remainingAmount := value)
  }

  /** A single debt whose value was edited is saved with nothing paid yet. */
  lemma SingleValueEditResetsRemaining(row: Debt, edited: Debt, value: int)
    ensures var r := UpdatedDebt(row, EditSingleValue(edited, value));
      r.totalAmount == value && r.remainingAmount == r.totalAmount
  {
  }

  /**
   * The edit form shows `due_day || 10`, the same default the other pages
   * place a recurring debt with: a recurring debt saved with its day field
   * untouched is placed on the very day the form showed, even when the
   * stored day is missing.
   */
  lemma EditedDayAsShown(row: Debt, edited: Debt)
    requires edited.debtType == Recurring
    ensures DueDayOrDefault(UpdatedDebt(row, edited)) == DueDayOrDefault(edited)
    ensures !HasSpecificDate(UpdatedDebt(row, edited))
  {
  }

  // ---------------------------------------------------------------------
  // Invoices

  /** The "add invoice" form: month 1..12 from the selector, year and amount. */
  datatype InvoiceForm = InvoiceForm(month: int, year: int, amount: int)

  /** `cards.find(c => c.id === cardId)`: the first card with that id. */
  function FindCard(cards: seq<CreditCard>, cardId: string): (r: Option<nat>)
    ensures r.None? ==> forall i :: 0 <= i < |cards| ==> cards[i].id != cardId
    ensures r.Some? ==> r.value < |cards| && cards[r.value].id == cardId
                        && forall i :: 0 <= i < r.value ==> cards[i].id != cardId
  {
    if cards == [] then None
    else if cards[0].id == cardId then Some(0)
    else
      var rest := FindCard(cards[1..], cardId);
      if rest.None? then None else Some(rest.value + 1)
  }

  /**
   * The row `handleAddInvoice` inserts, or nothing for an unknown card: due
   * and closing dates are `new Date(year, month - 1, day)` with the card's
   * days, written as their calendar date; `id` is the one the table assigns.
   */
  function NewInvoiceRow(id: string, cards: seq<CreditCard>, cardId: string, form: InvoiceForm): Option<Invoice> {
    var found := FindCard(cards, cardId);
    if found.None? then None
    else
      var card := cards[found.value];
      Some(Invoice(id, cardId, form.month, form.year, Some(form.amount),
                   Some(JsDateDay(JsYear(form.year), form.month - 1, card.dueDay)),
                   Some(JsDateDay(JsYear(form.year), form.month - 1, card.closingDay)),
                   Open))
  }

  /**
   * Nothing is inserted exactly when no card has the id; otherwise the
   * invoice is open, for that card, with the form's month, year and amount,
   * and its dates come from the first card with the id.
   */
  lemma NewInvoiceShape(id: string, cards: seq<CreditCard>, cardId: string, form: InvoiceForm)
    ensures var r := NewInvoiceRow(id, cards, cardId, form);
      && (r.None? <==> forall c :: c in cards ==> c.id != cardId)
      && (r.Some? ==>
            && r.value.status == Open && r.value.creditCardId == cardId
            && r.value.month == form.month && r.value.year == form.year && r.value.amount == Some(form.amount)
            && exists i :: 0 <= i < |cards| && cards[i].id == cardId
                 && r.value.dueDate == Some(JsDateDay(JsYear(form.year), form.month - 1, cards[i].dueDay))
                 && r.value.closingDate == Some(JsDateDay(JsYear(form.year), form.month - 1, cards[i].closingDay)))
  {
    var found := FindCard(cards, cardId);
    if found.None? {
      forall c | c in cards ensures c.id != cardId {
        var i :| 0 <= i < |cards| && cards[i] == c;
      }
    } else {
      assert cards[found.value] in cards;
    }
  }

  /**
   * A card day that the chosen month has gives a date in that month on
   * that day (with a year of 0..99 read as 1900..1999).
   */
  lemma InvoiceDayInMonth(year: int, month: int, cardDay: int)
    requires 1 <= month <= 12 && 1 <= cardDay <= DaysInMonth(JsYear(year), month)
    ensures CivilOfDay(JsDateDay(JsYear(year), month - 1, cardDay)) == Civil(JsYear(year), month, cardDay)
  {
    JsDateInMonth(JsYear(year), month - 1, cardDay);
  }

  /**
   * A card day past the chosen month's end spills into the next month, on
   * the day given by the excess: a card due on the 31st gets its February
   * invoice due in March.
   */
  lemma InvoiceDayRollsOver(year: int, month: int, cardDay: int)
    requires 1 <= month <= 12 && DaysInMonth(JsYear(year), month) < cardDay <= 31
    ensures var k := 12 * JsYear(year) + month - 1;
      var r := JsDateDay(JsYear(year), month - 1, cardDay);
      && MonthOfDay(r) == k + 1
      && DateOfDay(r) == cardDay - DaysInMonth(JsYear(year), month)
  {
    var k := 12 * JsYear(year) + month - 1;
    MonthIndexSplit(JsYear(year), month - 1);
    MonthStartStep(k);
    MonthStartStep(k + 1);
    var r := JsDateDay(JsYear(year), month - 1, cardDay);
    assert MonthStart(k + 1) <= r < MonthStart(k + 2);
    MonthOfDayUnique(r, k + 1);
  }

  /** The month names, January first. */
  const MonthNames: seq<string> :=
    ["Janeiro", "Fevereiro", "Março", "Abril", "Maio", "Junho",
     "Julho", "Agosto", "Setembro", "Outubro", "Novembro", "Dezembro"]

  datatype MonthOption = MonthOption(value: int, name: string)

  /** The month selector: `months.map((m, i) => <option value={i + 1}>m</option>)`. */
  function MonthOptions(): (r: seq<MonthOption>)
    ensures |r| == 12
    ensures forall i :: 0 <= i < 12 ==> r[i] == MonthOption(i + 1, MonthNames[i])
  {
    seq(12, i requires 0 <= i < 12 => MonthOption(i + 1, MonthNames[i]))
  }

  /** Some option of the selector has the value `m`. */
  predicate Offered(m: int) {
    exists o :: o in MonthOptions() && o.value == m
  }

  /** The selector offers exactly the months 1 to 12, each once. */
  lemma MonthOptionValues()
    ensures forall m :: Offered(m) <==> 1 <= m <= 12
    ensures forall i, j :: 0 <= i < j < 12 ==> MonthOptions()[i].value != MonthOptions()[j].value
  {
    var r := MonthOptions();
    forall m | 1 <= m <= 12 ensures Offered(m) {
      assert r[m - 1] in r;
    }
  }

  // ---------------------------------------------------------------------
  // The due-date line

  /** The month names of the long date format, lower case. */
  const LongMonthNames: seq<string> :=
    ["janeiro", "fevereiro", "março", "abril", "maio", "junho",
     "julho", "agosto", "setembro", "outubro", "novembro", "dezembro"]

  /** Two digits with a leading zero (`dd`). */
  function TwoDigits(n: int): (s: string)
    requires 0 <= n < 100
    ensures |s| == 2 && IsDigit(s[0]) && IsDigit(s[1])
  {
    [DigitChar(n / 10), DigitChar(n % 10)]
  }

  /** Zeros in front of `s` up to `width` characters (`yyyy`). */
  function PadLeft(s: string, width: nat): (r: string)
    ensures |r| == if |s| >= width then |s| else width
    ensures r[|r| - |s|..] == s
    decreases width - |s|
  {
    if |s| >= width then s else PadLeft("0" + s, width)
  }

  /** A year as at least four digits. */
  function YearText(year: int): string {
    if year >= 0 then PadLeft(NatText(year), 4) else IntText(year)
  }

  /** `format(date, "dd 'de' MMMM 'de' yyyy")` in the long Portuguese form. */
  function LongDate(d: Day): string {
    var c := CivilOfDay(d);
    TwoDigits(c.day) + MonthAndYearText(c)
  }

  /** The part after the day: " de <month> de <year>". */
  function MonthAndYearText(c: Civil): string
    requires ValidCivil(c)
  {
    " de " + LongMonthNames[c.month - 1] + " de " + YearText(c.year)
  }

  /** `${debt.due_day}`: the number, or `null` when there is none. */
  function DueDayText(dueDay: Option<int>): string {
    if dueDay.Some? then IntText(dueDay.value) else "null"
  }

  const DueInfoPrefix: string := "Vencimento: "

  /** `formatDebtDueInfo`. */
  function FormatDebtDueInfo(debt: Debt): string {
    if HasSpecificDate(debt) then DueInfoPrefix + LongDate(debt.specificDueDate.value)
    else DueInfoPrefix + "dia " + DueDayText(debt.dueDay) + " de cada mês"
  }

  /**
   * A debt placed by its day reads "dia N de cada mês", and the number can
   * be read back from the line.
   */
  lemma DueInfoRecurring(debt: Debt, n: nat)
    requires !HasSpecificDate(debt) && debt.dueDay == Some(n)
    ensures var s := FormatDebtDueInfo(debt);
      var digits := NatText(n);
      && s == "Vencimento: dia " + digits + " de cada mês"
      && s[16..16 + |digits|] == digits
      && ParseDigits(s[16..16 + |digits|]) == n
  {
    var s := FormatDebtDueInfo(debt);
    assert s == "Vencimento: dia " + NatText(n) + " de cada mês";
    ParseNatText(n);
  }

  /** Two digits read back as the number they show. */
  lemma TwoDigitsReadBack(n: int)
    requires 0 <= n < 100
    ensures ParseDigits(TwoDigits(n)) == n
  {
    var t := TwoDigits(n);
    assert t[..1] == [t[0]] && [t[0]][..0] == [];
    assert ParseDigits(t[..1]) == n / 10;
    assert ParseDigits(t) == (n / 10) * 10 + n % 10;
  }

  /** The long date starts with the two digits of the day of the month. */
  lemma LongDateStartsWithDay(d: Day)
    ensures |LongDate(d)| >= 2 && LongDate(d)[..2] == TwoDigits(DateOfDay(d))
  {
    var c := CivilOfDay(d);
    assert LongDate(d) == TwoDigits(c.day) + MonthAndYearText(c);
  }

  /** A debt with a date reads that date after the prefix, its day first, so the day can be read back. */
  lemma DueInfoSpecific(debt: Debt)
    requires HasSpecificDate(debt)
    ensures var s := FormatDebtDueInfo(debt);
      && s == DueInfoPrefix + LongDate(debt.specificDueDate.value)
      && IsDigit(s[12]) && IsDigit(s[13])
      && ParseDigits(s[12..14]) == DateOfDay(debt.specificDueDate.value)
  {
    var d := debt.specificDueDate.value;
    var s := FormatDebtDueInfo(debt);
    LongDateStartsWithDay(d);
    assert s[12..14] == LongDate(d)[..2];
    TwoDigitsReadBack(DateOfDay(d));
  }

  /** The line tells the two kinds apart after the prefix: a digit for a date, the word "dia" for a day. */
  lemma DueInfoKinds(debt: Debt)
    ensures var s := FormatDebtDueInfo(debt);
      |s| > 12 && (IsDigit(s[12]) <==> HasSpecificDate(debt))
  {
    if HasSpecificDate(debt) {
      DueInfoSpecific(debt);
    }
  }

  /** A single debt missing its date shows the missing day as "null". */
  lemma DueInfoSingleWithoutDate(debt: Debt)
    requires debt.debtType == Single && debt.specificDueDate.None? && debt.dueDay.None?
    ensures FormatDebtDueInfo(debt) == "Vencimento: dia null de cada mês"
  {
  }
}
