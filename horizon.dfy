/**
 * The card-cycle timeline: each day of the month is classified against a
 * card's closing and due days, and days 1 to 30 are drawn as one strip.
 */
module Horizon {
  import opened Dates
  import opened Records

  /** The four colours of `getDayStatus`. */
  datatype DayStatus = Closing | Due | BestBuy | Neutral

  /** The class name each status is drawn with. */
  function ClassName(s: DayStatus): string {
    match s
    case Closing => "bg-yellow-500/50"
    case Due => "bg-red-500/50"
    case BestBuy => "bg-green-500/30"
    case Neutral => "bg-secondary"
  }

  /**
   * `getDayStatus(day, card)`. The current instant is read by the source
   * but never used; it is kept as `now` so that this can be stated.
   */
  function GetDayStatus(day: int, card: CreditCard, now: Time): DayStatus {
    if day == card.closingDay then Closing
    else if day == card.dueDay then Due
    else if card.closingDay < card.dueDay then
      if card.closingDay < day < card.dueDay then BestBuy else Neutral
    else if day > card.closingDay || day < card.dueDay then BestBuy
    else Neutral
  }

  /**
   * Each status in terms of the inputs: the closing day wins over the due
   * day; the best-buy days are those strictly after closing and before due,
   * wrapping past the month's end when closing is not before due (so when
   * the two days coincide, every other day); every remaining day is neutral.
   */
  lemma StatusCases(day: int, card: CreditCard, now: Time)
    ensures GetDayStatus(day, card, now) == Closing <==> day == card.closingDay
    ensures GetDayStatus(day, card, now) == Due <==> day == card.dueDay && day != card.closingDay
    ensures GetDayStatus(day, card, now) == BestBuy <==>
      && day != card.closingDay && day != card.dueDay
      && if card.closingDay < card.dueDay then card.closingDay < day < card.dueDay
         else day > card.closingDay || day < card.dueDay
    ensures card.closingDay == card.dueDay ==>
      (GetDayStatus(day, card, now) == BestBuy <==> day != card.closingDay)
  {
  }

  /** The clock plays no part in the colour. */
  lemma StatusIgnoresClock(day: int, card: CreditCard, now1: Time, now2: Time)
    ensures GetDayStatus(day, card, now1) == GetDayStatus(day, card, now2)
  {
  }

  /** How far `day` lies after `from` going forward round a 31-day cycle. */
  function CycleDistance(from: int, day: int): (r: int)
    ensures 0 <= r < 31
  {
    (day - from) % 31
  }

  /**
   * An independent reading of the best-buy days: going forward from the
   * closing day, the days passed before reaching the due day again (a
   * whole cycle when the two coincide).
   */
  predicate InBuyingWindow(day: int, card: CreditCard) {
    var span := if card.closingDay == card.dueDay then 31 else CycleDistance(card.closingDay, card.dueDay);
    0 < CycleDistance(card.closingDay, day) < span
  }

  /** For days of the month, the best-buy days are exactly the days of the buying window. */
  lemma BestBuyIsBuyingWindow(day: int, card: CreditCard, now: Time)
    requires 1 <= day <= 31 && 1 <= card.closingDay <= 31 && 1 <= card.dueDay <= 31
    ensures GetDayStatus(day, card, now) == BestBuy <==> InBuyingWindow(day, card)
  {
    var c := card.closingDay;
    var d := card.dueDay;
    if c < d {
      assert CycleDistance(c, d) == d - c;
      if day >= c {
        assert CycleDistance(c, day) == day - c;
      } else {
        assert CycleDistance(c, day) == day - c + 31;
      }
    } else if c > d {
      assert CycleDistance(c, d) == d - c + 31;
      if day >= c {
        assert CycleDistance(c, day) == day - c;
      } else {
        assert CycleDistance(c, day) == day - c + 31;
      }
    } else {
      if day >= c {
        assert CycleDistance(c, day) == day - c;
      } else {
        assert CycleDistance(c, day) == day - c + 31;
      }
    }
  }

  /** The number of days the strip shows. */
  const TimelineDays: nat := 30

  /** The strip: `getDayStatus(day, card)` for day = 1 .. 30, in order. */
  function Timeline(card: CreditCard, now: Time): (r: seq<DayStatus>)
    ensures |r| == TimelineDays
    ensures forall i :: 0 <= i < TimelineDays ==> r[i] == GetDayStatus(i + 1, card, now)
  {
    seq(TimelineDays, i requires 0 <= i < TimelineDays => GetDayStatus(i + 1, card, now))
  }

  /**
   * The closing (due) mark appears on the strip exactly when the closing
   * (due) day is one of 1 .. 30, and only once; a card closing on the 31st
   * shows no closing mark at all.
   */
  lemma TimelineMarks(card: CreditCard, now: Time)
    ensures var t := Timeline(card, now);
      && (Closing in t <==> 1 <= card.closingDay <= 30)
      && (Closing in t ==> t[card.closingDay - 1] == Closing
                           && forall i :: 0 <= i < 30 && t[i] == Closing ==> i == card.closingDay - 1)
      && (Due in t <==> 1 <= card.dueDay <= 30 && card.dueDay != card.closingDay)
  {
    var t := Timeline(card, now);
    if 1 <= card.closingDay <= 30 {
      assert t[card.closingDay - 1] == Closing;
    }
    if 1 <= card.dueDay <= 30 && card.dueDay != card.closingDay {
      assert t[card.dueDay - 1] == Due;
    }
  }
}
