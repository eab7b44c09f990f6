# Organizador Financeiro — a verified model of its logic

Organizador Financeiro is a personal-finance web app. A React front end stores
credit cards, card invoices and debts in Supabase. Two Supabase Edge Functions
send Web Push reminders. This project models the parts of it that compute
something, and proves what they promise.

- **Push delivery** (`send_reminders.dfy`, `send_test_notification.dfy`,
  `delivery.dfy`, `subscriptions.dfy`)
  - The reminder dispatcher selects the bills due tomorrow. It checks the
    VAPID configuration and then, bill by bill, tries every push subscription
    of the bill's owner.
  - The test-notification handler does the same for one user and a fixed
    payload.
  - The subscription table is a class `Registry` holding a sequence of rows.
    The handlers delete rows from it while they loop.
  - Each delivery's outcome comes from an oracle parameter. The outcome is
    delivered, HTTP 410 Gone (section 15.5.11 of RFC 9110), or another
    failure.
  - The loops are methods proved equal to specification functions. Lemmas
    about those functions state the promises:
    - one result per subscription, in order;
    - pruning only on 410;
    - a failure never stops the remaining attempts;
    - a pruned subscription is never retried;
    - the early returns come in the order the handlers check them.
- **Browser push client** (`push_client.dfy`)
  - The base64url-to-bytes conversion: padding (section 3.2 of RFC 4648), the
    alphabet swap from section 5 to section 4 of RFC 4648, and the byte-fill
    loop over an `array`.
  - The notification-permission request.
  - Subscribing: reuse the browser's existing subscription or create one, then
    upsert the row into the registry by endpoint.
- **Service worker** (`service_worker.dfy`)
  - The mapping from a push payload to the notification shown, with its
    fallbacks.
  - The focus-or-open choice on click.
- **Dates** (`dates.dfy`)
  - Day numbers since 1970-01-01 and millisecond instants, in UTC.
  - Civil (year, month, day) conversion.
  - JavaScript's `new Date(y, m, d)`, including the two-digit-year mapping and
    the day rollover.
  - date-fns `addMonths`, which clamps to the month's end, and
    `differenceInDays`, which truncates toward zero.
- **Dashboard** (`dashboard.dfy`)
  - The due-date projection of debts and the 30-day window.
  - The amount choice, the stable sort by due date and the urgent count.
  - The urgency colour and the days text.
  - The page is a class whose fetch method updates its fields.
- **Calendar** (`calendar.dfy`)
  - Month-bounded events from invoices and debts.
  - The month grid: leading blanks, then one cell per day with that day's
    events.
  - Moving to the previous or next month.
- **Horizon** (`horizon.dfy`): the card-cycle day classifier and the 30-day
  strip.
- **Faturas** (`faturas.dfy`)
  - Building the debt rows for insert and for edit.
  - Building the invoice row, with its JavaScript date construction.
  - The month selector.
  - The due-date caption.
- **Shared records** (`records.dfy`, `text.dfy`, `wrappers.dfy`)
  - The row types of `src/lib/database.types.ts` and the bill row the
    dispatcher reads.
  - JavaScript truthiness of strings and decimal number text.

Amounts are integers: cents, or whatever unit the row stores. Time is an
integer count of milliseconds since the epoch.

## Model

| member | source | states |
|---|---|---|
| Records.DueDayOrDefault | src/pages/Dashboard.tsx:85 | `due_day` or else 10: a missing or zero day becomes 10, any other stored day is kept, and the result is never 0 |
| Text.OrElse | src/sw.js:17-22 | JavaScript `s or fallback` on strings: the fallback exactly when `s` is missing or empty, otherwise `s` itself |
| Text.NatText | src/pages/Dashboard.tsx:133 | the decimal text of a number, as `${days}` and `${debt.due_day}` render it: non-empty, all digits, no leading zero |
| Text.ParseNatText | src/pages/Faturas.tsx:222 | reading the decimal text back gives the number (round trip) |
| Text.NatTextInjective | src/pages/Dashboard.tsx:133 | different numbers print differently |
| Dates.AddMonths | src/pages/Dashboard.tsx:89 | date-fns `addMonths`: the month index moves by `amount` and the day of month is clamped to the target month's length |
| Dates.JsDateRollover | src/pages/Faturas.tsx:193-194 | `new Date(y, m, d)` with `d` past the month's end is the same day as `(y, m+1, d - length)` |
| Dates.JsDateOfMonth | src/pages/Calendar.tsx:69-72 | `new Date(getFullYear(), getMonth(), d)` of a month is that month's first day plus `d - 1` (for years from 100 on) |
| Dates.MidnightBefore | src/pages/Dashboard.tsx:88 | a midnight is earlier than `now` exactly when it is on an earlier day, or on today with `now` past midnight |
| Dates.DaysUntilMidnight | src/pages/Dashboard.tsx:114 | `differenceInDays(due midnight, now)` counts whole days; it is one less than the calendar-day gap when `due` is later than today and `now` is past midnight |
| Dates.DifferenceInDaysMonotone | src/pages/Dashboard.tsx:113-117 | the whole-day difference never decreases as the due instant moves later |
| Dates.Weekday | src/pages/Calendar.tsx:134 | `getDay()` of a day: a column in 0..6 |
| Dates.WeekdayCycle | src/pages/Calendar.tsx:134 | the weekday is anchored on the calendar: 1970-01-01 is Thursday (4), each next day is the next weekday, and 0 falls exactly on the Sundays, every seventh day from 1970-01-04 |
| Subscriptions.Filter | supabase/functions/send-test-notification/index.ts:30-33 | a row is kept exactly when it was present and passes the test, and the list never grows |
| Subscriptions.FilterUniqueIds | supabase/functions/send-reminders/index.ts:57-60 | filtering keeps the ids distinct |
| Subscriptions.FilterUniqueEndpoints | supabase/functions/send-reminders/index.ts:57-60 | filtering keeps the endpoints distinct |
| Subscriptions.FilterAll | supabase/functions/send-reminders/index.ts:87 | a filter that every row passes changes nothing |
| Subscriptions.ListByUser | supabase/functions/send-reminders/index.ts:57-60 | `.eq('user_id', …)`: exactly the rows of that user, with ids and endpoints still distinct |
| Subscriptions.DeleteById | supabase/functions/send-reminders/index.ts:87 | `.delete().eq('id', …)`: exactly the rows with another id remain, an unknown id changes nothing, and uniqueness is kept |
| Subscriptions.FindEndpoint | src/lib/push.ts:46-56 | the conflict lookup of an upsert on `endpoint`: the first row with that endpoint, or none when no row has it |
| Subscriptions.UpsertEffect | src/lib/push.ts:46-56 | after an upsert, a row has the endpoint with the given user and keys, ids and endpoints stay distinct, rows with other endpoints are untouched, and a row is added only when the endpoint was new |
| Subscriptions.UpsertIdempotent | src/lib/push.ts:46-56 | upserting the same endpoint, user and keys again adds no row and changes nothing |
| Subscriptions.Registry.constructor | src/lib/database.types.ts:177-185 | a registry over rows with distinct ids and endpoints and a fresh-id counter above every id |
| Subscriptions.Registry.Upsert | src/lib/push.ts:46-56 | the table becomes the upsert of the old table, and the registry invariant is kept |
| Subscriptions.Registry.Delete | supabase/functions/send-reminders/index.ts:87 | the table becomes the old table without that id, and the invariant is kept |
| Delivery.SendAllLog | supabase/functions/send-test-notification/index.ts:49-64 | one attempt per subscription, in list order, appended after the earlier attempts; each carries the oracle's outcome, so a failure never stops the rest |
| Delivery.SendAllRows | supabase/functions/send-test-notification/index.ts:59-61 | a row survives a run exactly when no attempt in that run ended in 410 for its id: only 410 deletes, and every other outcome keeps the row |
| Delivery.LastStillPresent | supabase/functions/send-reminders/index.ts:73-88 | with distinct ids, a subscription is still in the table when its own turn comes |
| Delivery.SendAllNoRetry | supabase/functions/send-reminders/index.ts:85-88 | every id that got a 410 is gone from the table, and no attempt follows a 410 for the same id |
| Delivery.SendAllKeepsUnique | supabase/functions/send-reminders/index.ts:87 | deleting during a run keeps ids and endpoints distinct |
| SendReminders.Tomorrow | supabase/functions/send-reminders/index.ts:22-24 | the selected date is today's day number plus one |
| SendReminders.BillsDueOn | supabase/functions/send-reminders/index.ts:26-29 | exactly the bills due on that day are selected, and none when no bill is due then |
| Delivery.Results | supabase/functions/send-reminders/index.ts:94-96 | the `results` list has one entry per attempt |
| Delivery.ResultsAt | supabase/functions/send-test-notification/index.ts:56-62 | result k reports attempt k; with the handlers' entry makers, a success carries the bill's user (reminders) or the subscription's id (test), and a failure carries the error message |
| SendReminders.NoBillsNoDelivery | supabase/functions/send-reminders/index.ts:34-38 | with no bill due tomorrow the reply is "No bills due tomorrow", with no attempt and no delete, even when the keys are missing |
| SendReminders.MissingKeysStopBeforeDelivery | supabase/functions/send-reminders/index.ts:46-48 | with a bill due and a VAPID key missing or empty, the reply is a 400 with the key message, before any attempt or delete |
| SendReminders.SetupErrorStopsBeforeDelivery | supabase/functions/send-reminders/index.ts:50 | with a bill due and both keys present, keys that `setVapidDetails` rejects give a 400 carrying its message, before any attempt or delete |
| SendReminders.BillSkipped | supabase/functions/send-reminders/index.ts:62-65 | a failed subscription lookup skips only that bill: the run is exactly as it was before the bill, and later bills still run |
| SendReminders.BillLog | supabase/functions/send-reminders/index.ts:67-91 | a bill whose lookup succeeds adds one attempt per current subscription of its owner, in order, all with the bill's payload |
| SendReminders.BillRows | supabase/functions/send-reminders/index.ts:85-88 | during a bill, a row is removed exactly when one of that bill's attempts got 410 for its id |
| SendReminders.BillResults | supabase/functions/send-reminders/index.ts:82-89 | a bill appends one result per subscription of its owner: success with the user id, or failure with the message |
| SendReminders.RunRows | supabase/functions/send-reminders/index.ts:55-92 | over all bills, earlier attempts are kept and a row survives exactly when no attempt got 410 for its id |
| SendReminders.NoRetryAcrossBills | supabase/functions/send-reminders/index.ts:55-60 | because subscriptions are re-read per bill, a subscription pruned for one bill is never tried for a later one; ids and endpoints stay distinct |
| SendReminders.NotifyOwner | supabase/functions/send-reminders/index.ts:73-91 | the inner loop: the table and results become those of the delivery run over the owner's subscriptions |
| SendReminders.RemindOne | supabase/functions/send-reminders/index.ts:56-91 | one pass of the outer loop moves the state from the first i bills to the first i+1 |
| SendReminders.RemindAll | supabase/functions/send-reminders/index.ts:55-92 | the nested loops leave the table and results of processing every bill in order |
| SendReminders.HandleReminders | supabase/functions/send-reminders/index.ts:22-102 | the handler's reply and final table are those of the specification: query error, no bills, missing keys, rejected keys, or the results list |
| SendTestNotification.Lookup | supabase/functions/send-test-notification/index.ts:30-35 | the subscriptions of the requested user; none when the lookup fails or no user id was sent |
| SendTestNotification.BadRequestChangesNothing | supabase/functions/send-test-notification/index.ts:15 | an unparsable body or a push-setup error gives a 400 with its message and changes nothing |
| SendTestNotification.NoSubscriptionsNoDelivery | supabase/functions/send-test-notification/index.ts:35-39 | a lookup error or an empty list gives "No subscriptions found" with no attempt and no delete |
| SendTestNotification.OneResultPerSubscription | supabase/functions/send-test-notification/index.ts:47-64 | exactly one result per subscription, in list order; a success carries that subscription's id |
| SendTestNotification.PrunesOnlyGone | supabase/functions/send-test-notification/index.ts:59-61 | a row is removed exactly when its delivery got 410; other users' rows are never touched |
| SendTestNotification.OtherUsersNotTried | supabase/functions/send-test-notification/index.ts:30-33 | no subscription of another user is tried or deleted |
| SendTestNotification.TryAll | supabase/functions/send-test-notification/index.ts:49-64 | the loop leaves the table and the results of the delivery run over the user's subscriptions |
| SendTestNotification.HandleTest | supabase/functions/send-test-notification/index.ts:15-75 | the handler's reply and final table are those of the specification |
| PushClient.Repeat | src/lib/push.ts:6 | `'='.repeat(n)`: n copies of the character |
| PushClient.PaddingCompletesQuantum | src/lib/push.ts:6 | the padding is 0 to 3 `=` characters and makes the length a multiple of 4 |
| PushClient.ReplaceAll | src/lib/push.ts:7 | a global replace keeps the length and swaps exactly the matching characters |
| PushClient.StandardAlphabetPerCharacter | src/lib/push.ts:7 | every `-` becomes `+`, every `_` becomes `/`, everything else is kept, and no `-` or `_` is left |
| PushClient.AlphabetRoundTrip | src/lib/push.ts:7 | on url-safe text, translating to the standard alphabet and back gives the text again |
| PushClient.Base64TextShape | src/lib/push.ts:6-7 | the text given to `atob` is the translated key followed only by padding, with a length that is a multiple of 4 |
| PushClient.ToUint8 | src/lib/push.ts:11 | storing into a `Uint8Array` keeps values 0..255 unchanged |
| PushClient.FillBytes | src/lib/push.ts:9-12 | a fresh array as long as the decoded string, where byte i is char code i |
| PushClient.UrlBase64ToBytes | src/lib/push.ts:5-14 | an `atob` failure is passed on; otherwise the bytes of the decoded text, one per character |
| PushClient.RequestPermission | src/lib/push.ts:16-22 | succeeds exactly when permission is granted and then returns "granted"; otherwise it fails with the refusal message |
| PushClient.PushManager.constructor | src/lib/push.ts:35 | the browser starts with the given current subscription |
| PushClient.PushManager.GetSubscription | src/lib/push.ts:35 | returns the current subscription |
| PushClient.PushManager.Subscribe | src/lib/push.ts:39-42 | a successful subscribe becomes the current subscription; a failure leaves it unchanged |
| PushClient.ObtainSubscription | src/lib/push.ts:35-43 | an existing subscription is reused and nothing new is created; only when there is none is the key decoded and a subscription created |
| PushClient.SubscribeToPush | src/lib/push.ts:24-64 | a missing key fails before the worker or the table is touched; a missing worker fails; an upsert error is passed on with the table unchanged; otherwise the row is upserted by endpoint and the subscription returned; the browser holds the obtained subscription even when the upsert fails |
| ServiceWorker.DataOf | src/sw.js:8-15 | no data gives no fields; parsed data gives its fields; unparsable data gives title "Nova Mensagem" with the raw text as body; `data` is null exactly when the pushed JSON is `null` |
| ServiceWorker.NullShowsNothing | src/sw.js:11-17 | a pushed JSON `null` makes reading `data.title` throw, so no notification is shown; every other push shows one |
| ServiceWorker.ShowNoData | src/sw.js:8-9 | with no data, the title, body and link are the three defaults |
| ServiceWorker.ShowUnparsable | src/sw.js:10-15 | unparsable text is shown under "Nova Mensagem" with that text as body (the default when it is empty) and link "/" |
| ServiceWorker.FieldsFallBackIndependently | src/sw.js:17-22 | title, body and url each fall back to their default on their own, exactly when missing or empty |
| ServiceWorker.ShowFixedOptions | src/sw.js:20-29 | every notification shown has the one "open" action, the fixed vibration pattern and the app icon as icon and badge |
| ServiceWorker.PayloadRoundTrip | src/sw.js:17-22 | a payload with non-empty title, body and url is shown with exactly those three values |
| ServiceWorker.ReminderShown | supabase/functions/send-reminders/index.ts:67-71 | a bill reminder reaches the user as "Fatura Vencendo!" with the bill's body, linking to "/faturas" |
| ServiceWorker.TestShown | supabase/functions/send-test-notification/index.ts:41-45 | the test payload is shown with its own title and body, linking to "/" |
| ServiceWorker.FirstAppWindow | src/sw.js:41-43 | the first client whose url is "/" and that can be focused, or none when no such client exists |
| ServiceWorker.ClickFocusesOrOpens | src/sw.js:35-48 | the notification is always closed; the first app window is focused if one exists, otherwise the link opens when windows can be opened |
| Calendar.InMonthIff | src/pages/Calendar.tsx:33-34 | a day lies between start and end of the displayed month exactly when it belongs to that month |
| Calendar.InvoiceEvents | src/pages/Calendar.tsx:51-61 | never more events than invoice rows |
| Calendar.InvoiceEventsExact | src/pages/Calendar.tsx:37-41 | an event comes from an invoice exactly when its due date falls in the displayed month; title, date and amount come from that invoice, and every such invoice gives one |
| Calendar.DebtEventOf | src/pages/Calendar.tsx:64-84 | a debt gives an event exactly when its date lies in the displayed month and it still has a remaining amount; the event carries the debt's id, name, date and amount |
| Calendar.DebtEvents | src/pages/Calendar.tsx:63-86 | never more events than debts |
| Calendar.DebtEventsInMonth | src/pages/Calendar.tsx:44-47 | the debt events are exactly those of the user's eligible debts, and all fall in the displayed month |
| Calendar.SingleDebtInItsMonth | src/pages/Calendar.tsx:66-67 | a single debt with a date appears exactly in the month containing that date |
| Calendar.RecurringDebtPlacement | src/pages/Calendar.tsx:69-76 | a recurring debt falls on its due day of the displayed month with no advancing; a due day past the month's end rolls over and drops out |
| Calendar.CollectInvoiceEvents | src/pages/Calendar.tsx:51-61 | the loop collects exactly the specified invoice events, in order |
| Calendar.CollectDebtEvents | src/pages/Calendar.tsx:63-86 | the loop collects exactly the specified debt events, in order |
| Calendar.CalendarPage.constructor | src/pages/Calendar.tsx:20-22 | the page starts at the given date, with no events, loading |
| Calendar.CalendarPage.FetchEvents | src/pages/Calendar.tsx:28-90 | with no user it stays loading and keeps its events; otherwise the events become the month's invoice events followed by its debt events, and loading ends |
| Calendar.CalendarPage.ShiftMonth | src/pages/Calendar.tsx:97-98 | the displayed month moves by exactly one month back or forward, keeping the time of day |
| Calendar.DaysOfMonth | src/pages/Calendar.tsx:92-95 | every day of the month from the first to the last, in order |
| Calendar.DaysFrom | src/pages/Calendar.tsx:92-95 | n consecutive days from the first |
| Calendar.EventsOn | src/pages/Calendar.tsx:139 | exactly the events falling on that calendar day |
| Calendar.Blanks | src/pages/Calendar.tsx:134 | n blank cells |
| Calendar.DayCells | src/pages/Calendar.tsx:138-139 | one cell per day, holding that day's events |
| Calendar.WeekdayColumn | src/pages/Calendar.tsx:134 | after weekday(first) blanks, day first+j lands in the column of its own weekday |
| Calendar.GridCell | src/pages/Calendar.tsx:134-139 | each cell of the grid is a blank, or the day at its offset past the blanks |
| Calendar.GridFromLayout | src/pages/Calendar.tsx:134-139 | blanks first, then the days in order, each in its weekday's column |
| Calendar.GridLayout | src/pages/Calendar.tsx:92-139 | weekday(first) blanks, then each day of the month numbered 1.., in its weekday's column (Sunday first), with exactly its events |
| Dashboard.InvoicePayments | src/pages/Dashboard.tsx:41-72 | a payment comes from an invoice exactly when the invoice is open or overdue and its due date lies between today's date and the date 30 days on (the `date` column compared with the two instants cast to dates) |
| Dashboard.DayWindowKeepsToday | src/pages/Dashboard.tsx:47-48 | the invoices' day window is the debts' instant window plus today: an invoice due today stays listed all day, and the upper bound is today plus 30 days |
| Dashboard.DebtPaymentOf | src/pages/Dashboard.tsx:93-103 | a debt is listed exactly when its next due date is in the window `now <= due <= now + 30 days`; the entry carries its id, name, amount and that date |
| Dashboard.DebtPayments | src/pages/Dashboard.tsx:53-57 | payments come exactly from the user's debts with a remaining amount whose next due date is in the window |
| Dashboard.SingleDueVerbatim | src/pages/Dashboard.tsx:79-81 | a single debt with a date is due on that date, unchanged |
| Dashboard.CandidateInThisMonth | src/pages/Dashboard.tsx:84-85 | the recurring candidate is today's month, on day `due_day` or else 10 |
| Dashboard.StaysThisMonth | src/pages/Dashboard.tsx:88 | a candidate not earlier than now is kept |
| Dashboard.MovedToNextMonth | src/pages/Dashboard.tsx:88-90 | a candidate earlier than now moves to next month, on the due day clamped to that month's length, and is then not earlier than now |
| Dashboard.NextMonthIsLater | src/pages/Dashboard.tsx:89 | any day of next month is not earlier than now |
| Dashboard.RecurringProjection | src/pages/Dashboard.tsx:83-90 | the projected date is this month's due day when that is not earlier than now, else next month's (clamped); either way it is never earlier than now |
| Dashboard.DueTodayMovesOn | src/pages/Dashboard.tsx:88-90 | a due day equal to today's date moves to next month once now is past midnight |
| Dashboard.DebtAmountChoice | src/pages/Dashboard.tsx:98 | a single debt shows its total; a recurring one shows `minimum_payment` or else 0 |
| Dashboard.Insert | src/pages/Dashboard.tsx:108 | inserting adds exactly one entry |
| Dashboard.DueOn | src/pages/Dashboard.tsx:108 | the entries due on a day form a subsequence |
| Dashboard.DueOnAppend | src/pages/Dashboard.tsx:108 | the entries due on a day, taken from a concatenation, are the two parts' entries concatenated |
| Dashboard.InsertSorted | src/pages/Dashboard.tsx:108 | inserting into a sorted list keeps it sorted, holding the old entries and the new one |
| Dashboard.InsertMultiset | src/pages/Dashboard.tsx:108 | inserting adds exactly the new entry to the multiset |
| Dashboard.InsertStable | src/pages/Dashboard.tsx:108 | the new entry goes after the entries with the same due date |
| Dashboard.SortByDue | src/pages/Dashboard.tsx:108 | sorting keeps the length |
| Dashboard.SortByDueSorted | src/pages/Dashboard.tsx:108 | the sorted list is in ascending order of due date |
| Dashboard.SortByDuePermutation | src/pages/Dashboard.tsx:108 | the sorted list is a permutation of the collected payments |
| Dashboard.SortByDueStable | src/pages/Dashboard.tsx:108 | payments with equal due dates keep their collected order (the sort is stable) |
| Dashboard.SortByDueSpec | src/pages/Dashboard.tsx:108 | sorted, a permutation, and stable, together |
| Dashboard.UrgentCount | src/pages/Dashboard.tsx:113-117 | the count of payments due within 3 whole days is at most the list's length |
| Dashboard.UrgentArePrefix | src/pages/Dashboard.tsx:113-117 | in the sorted list, the urgent payments are exactly the first `urgentCount` |
| Dashboard.UrgencyColor | src/pages/Dashboard.tsx:120-126 | red exactly for days < 0, orange for 0..3, yellow for 4..7, green beyond |
| Dashboard.DaysTextInjective | src/pages/Dashboard.tsx:128-134 | different non-negative day counts give different texts |
| Dashboard.DaysTextPlural | src/pages/Dashboard.tsx:133 | two or more days read "N dias", never one of the three fixed texts |
| Dashboard.TodayMeansTomorrowAfterMidnight | src/pages/Dashboard.tsx:128-131 | for a payment due no earlier than now, "Vence HOJE!" shows exactly for a date due tomorrow once now is past midnight, or for today exactly at midnight |
| Dashboard.DueTodayReadsToday | src/pages/Dashboard.tsx:120-131 | a payment due today (an invoice, listed all day) reads "Vence HOJE!" in orange |
| Dashboard.CollectedInWindow | src/pages/Dashboard.tsx:59-105 | every collected payment is due within the 30 days (debts within the instant window), and every eligible invoice and debt is collected |
| Dashboard.CollectInvoicePayments | src/pages/Dashboard.tsx:62-72 | the loop collects exactly the specified invoice payments, in order |
| Dashboard.CollectDebtPayments | src/pages/Dashboard.tsx:75-105 | the loop collects exactly the specified debt payments, in order |
| Dashboard.DashboardPage.constructor | src/pages/Dashboard.tsx:26-27 | the page starts with no payments and no urgent count |
| Dashboard.DashboardPage.FetchDashboardData | src/pages/Dashboard.tsx:33-118 | with no user nothing changes; otherwise the list is the sorted collection and the urgent count is taken over it |
| Horizon.StatusCases | src/pages/Horizon.tsx:59-70 | closing wins over due; best-buy exactly strictly between closing and due, wrapping when closing is not before due (every other day when they coincide); neutral otherwise |
| Horizon.StatusIgnoresClock | src/pages/Horizon.tsx:51-52 | the colour does not depend on the current date |
| Horizon.CycleDistance | src/pages/Horizon.tsx:65-67 | the forward distance round a 31-day cycle lies in 0..30 |
| Horizon.BestBuyIsBuyingWindow | src/pages/Horizon.tsx:62-68 | for days 1..31, best-buy is exactly being after closing and before the next due day, going forward round the cycle |
| Horizon.Timeline | src/pages/Horizon.tsx:150 | the strip has 30 entries, entry i classifying day i+1 |
| Horizon.TimelineMarks | src/pages/Horizon.tsx:150-153 | the closing mark shows once, exactly when the closing day is 1..30; the due mark shows exactly when the due day is 1..30 and differs from closing |
| Faturas.NewDebtShape | src/pages/Faturas.tsx:129-138 | a new debt keeps the form's fields; remaining is the entered value unless zero, then the total; a recurring debt has a due day and no date, a single one no day and the entered date if any, so at most one of the two |
| Faturas.EditShape | src/pages/Faturas.tsx:159-170 | an edit keeps id and owner, takes remaining as entered, and sets at most one of due day and date by type: the day only for `'recurring'`, the date only for `'single'`, and neither for a null or other `debt_type`, which the pages then place on the 10th |
| Faturas.ZeroRemainingAddVersusEdit | src/pages/Faturas.tsx:133 | a zero remaining becomes the total on insert but stays zero on edit |
| Faturas.SingleValueEditResetsRemaining | src/pages/Faturas.tsx:813 | editing a single debt's value sets the remaining amount equal to the new total |
| Faturas.EditedDayAsShown | src/pages/Faturas.tsx:798 | the edit form shows `due_day` or else 10, the default the other pages project with, so a debt typed `'recurring'` saved from it is placed on the day the form showed |
| Faturas.FindCard | src/pages/Faturas.tsx:190 | `cards.find`: an index whose card has that id, or none when no card has it |
| Faturas.NewInvoiceShape | src/pages/Faturas.tsx:187-204 | an unknown card inserts nothing; otherwise the invoice is open, copies month, year and amount, and has due and closing dates `new Date(year, month-1, card day)` |
| Faturas.InvoiceDayInMonth | src/pages/Faturas.tsx:193-194 | a card day that fits the month gives that civil date |
| Faturas.InvoiceDayRollsOver | src/pages/Faturas.tsx:193-194 | a card day past the month's end spills into the next month by the excess |
| Faturas.MonthOptions | src/pages/Faturas.tsx:365-366 | twelve options, option i having value i+1 and the i-th month name |
| Faturas.MonthOptionValues | src/pages/Faturas.tsx:213-216 | the values offered are exactly 1..12, all different |
| Faturas.TwoDigits | src/pages/Faturas.tsx:220 | the `dd` field is two digits |
| Faturas.TwoDigitsReadBack | src/pages/Faturas.tsx:220 | the `dd` field reads back as the day |
| Faturas.PadLeft | src/pages/Faturas.tsx:220 | padding reaches the width and keeps the text at the end |
| Faturas.LongDateStartsWithDay | src/pages/Faturas.tsx:220 | the long date begins with the two-digit day |
| Faturas.DueInfoRecurring | src/pages/Faturas.tsx:222 | without a date the caption is "Vencimento: dia N de cada mês", and N reads back as the due day |
| Faturas.DueInfoSpecific | src/pages/Faturas.tsx:219-220 | a single debt with a date gets the prefix and the long date, whose day reads back as the date's day |
| Faturas.DueInfoKinds | src/pages/Faturas.tsx:218-223 | the caption has a digit right after the prefix exactly for single debts with a date |
| Faturas.DueInfoSingleWithoutDate | src/pages/Faturas.tsx:219-222 | a single debt without a date falls to the recurring text and shows "dia null" |

## Left out

- Time zones: every date and instant is in UTC, so the shift that `toISOString().split('T')[0]` causes in other zones is not modelled.
- The Supabase client, database, auth and row-level security are left out. The tables are sequences and the query filters are explicit functions.
- Neither handler models its CORS `OPTIONS` reply or its console logging.
- `webpush.setVapidDetails`, `webpush.sendNotification` and VAPID signing (RFC 8292) are foreign code. Delivery outcomes come from an oracle parameter. In both handlers, keys that `setVapidDetails` rejects are the `setupError` parameter, checked where the call stands.
- The hardcoded fallback VAPID keys of the test-notification handler are not reproduced. That handler therefore has no key check beyond `setupError`.
- `JSON.stringify` and `JSON.parse` are not modelled: the payload encoding and the worker's parser are function parameters. `ServiceWorker.PayloadRoundTrip` assumes the parser inverts the encoding.
- Only string fields of a parsed payload are modelled.
- `atob` (the decode in section 4 of RFC 4648) is a function parameter that may fail.
- Deleting a subscription always succeeds; a failed delete is not modelled.
- The `updated_at` timestamp of the upsert is left out.
- The bill's `value` is kept as the text `${value}` renders, since it may have a fractional part; number formatting of that value is not modelled.
- Dashboard.InvoicePayments: assumes `invoices.due_date` is a `date` column, as the invoice form writes it as a `YYYY-MM-DD` string; the comparison with an ISO instant is taken as a comparison of dates.
- Amounts are integers. Float values, including the NaN case of `remaining_amount || total_amount`, are not modelled.
- The only date formatting modelled is the long date of the debt caption, written out with Portuguese month names; other `ptBR` formatting is left out.
- Faturas.YearText: negative years are not formatted.
- The database's order among rows with equal keys, and the invoice query's `.order('due_date')`, are not modelled. The sort in `fetchDashboardData` re-sorts the list anyway.
- Dashboard.SortByDue: the in-place `payments.sort` is modelled on values, as a stable insertion sort into a new sequence. Stability matches the sort JavaScript specifies.
- Dashboard.UrgentCount: invariance under reordering of the list is not proved.
- Dashboard.RecurringProjection: proved for instants after the epoch with a due day that fits the current month; the other cases are covered by Dashboard.NextMonthIsLater and Dashboard.MovedToNextMonth.
- Dates.JsDateOfMonth: needs years from 100 on, because `new Date` maps years 0..99 to 1900..1999.
- Calendar.RecurringDebtPlacement: proved for instants from 1970 on and a stored due day of at least 1; a negative stored day, which `new Date` places before the month, is not covered.
- The Calendar's refetch on every change of the displayed date, a React effect, is not modelled; Calendar.CalendarPage.FetchEvents is the refetch.
- The reminders page advertises reminders at 3, 1 and 0 days, but the dispatcher only selects bills due tomorrow. The model follows the dispatcher.
- The CRUD handlers are UI state and Supabase calls with no logic to state, so they are not modelled:
  - Faturas: `fetchCards`, `handleAddCard`, `handleEditCard`, `handleDeleteCard`, `handleDeleteDebt`.
  - Horizon: `fetchCards` and `handleAddCard`.
  - The React `useState` setters.
- `src/components/NotificationManager.tsx` is browser permission UI and is not part of this model.
- The delivery methods do not carry `Subscriptions.Registry.Valid`. Their deletes keep uniqueness, as `Delivery.SendAllKeepsUnique` proves, but the class invariant is not threaded through the loops.
