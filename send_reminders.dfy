/**
 * The `send-reminders` edge function: select the bills due tomorrow,
 * check the push credentials, then for each bill push one reminder to
 * every subscription of the bill's owner, pruning subscriptions the push
 * service reports as gone.
 */
module SendReminders {
  import opened Wrappers
  import opened Dates
  import opened Subscriptions
  import opened Delivery
  import opened Text

  /**
   * A row of `faturas` as the handler selects it (`id, description, value,
   * due_date, user_id`); `valueText` is the value as `${value}` renders it.
   */
  datatype Bill = Bill(id: string, description: string, valueText: string, dueDate: Day, userId: UserId)

  /** `{ success: true, user }` or `{ success: false, error }`. */
  datatype Entry = Sent(user: UserId) | NotSent(error: string)

  /** The JSON the handler answers with; `Error` is the catch-all 400 response. */
  datatype Response = Message(text: string) | Report(results: seq<Entry>) | Error(status: int, message: string)

  /** `VAPID_PUBLIC_KEY` and `VAPID_PRIVATE_KEY` from the environment. */
  datatype VapidConfig = VapidConfig(publicKey: Option<string>, privateKey: Option<string>)

  const NoBillsMessage: string := "No bills due tomorrow"
  const MissingKeysMessage: string := "VAPID keys not set in Edge Function secrets"
  const BadRequest: int := 400

  /** The date part of `now` plus one day (`setDate(getDate() + 1)`, then the UTC date). */
  function Tomorrow(now: Time): (d: Day)
    ensures d == DayOf(now) + 1
  {
    assert now + MsPerDay == (DayOf(now) + 1) * MsPerDay + TimeOfDay(now);
    DivOfMultiplePlus(DayOf(now) + 1, TimeOfDay(now));
    DayOf(now + MsPerDay)
  }

  /** `.from('faturas').select(...).eq('due_date', day)`, in table order. */
  function BillsDueOn(catalog: seq<Bill>, day: Day): (r: seq<Bill>)
    ensures forall b :: b in r <==> b in catalog && b.dueDate == day
    ensures (forall b :: b in catalog ==> b.dueDate != day) ==> r == []
  {
    if catalog == [] then []
    else (if catalog[0].dueDate == day then [catalog[0]] else []) + BillsDueOn(catalog[1..], day)
  }

  /** The reminder for one bill; the same for every subscription of its owner. */
  function ReminderPayload(bill: Bill): Payload {
    Payload("Fatura Vencendo!",
            "A fatura \"" + bill.description + "\" de R$ " + bill.valueText + " vence amanhã!",
            "/faturas")
  }

  /**
   * The outer loop over the first `count` bills: a bill whose subscription
   * lookup fails (its index is in `lookupFails`) is skipped; otherwise the
   * owner's subscriptions are read afresh from the current table and all
   * tried.
   */
  function ProcessBills(run: Run, bills: seq<Bill>, count: nat, lookupFails: set<nat>, send: Sender): Run
    requires count <= |bills|
  {
    if count == 0 then run
    else
      var i := count - 1;
      var before := ProcessBills(run, bills, i, lookupFails, send);
      if i in lookupFails then before
      else SendAll(before, ListByUser(before.rows, bills[i].userId), ReminderPayload(bills[i]), send)
  }

  function EntryOf(a: Attempt): Entry {
    if a.outcome.Delivered? then Sent(a.sub.userId) else NotSent(a.outcome.message)
  }

  /** The `results` list: one entry per attempt, in attempt order. */
  function Entries(attempts: seq<Attempt>): seq<Entry> {
    Results(attempts, EntryOf)
  }

  datatype Handled = Handled(run: Run, response: Response)

  /**
   * The whole handler run: the bill query's error (if any), the selection,
   * the empty-selection answer, the credential check, the push setup, then
   * the loops. `setupError` is what `webpush.setVapidDetails` throws for keys
   * it rejects; the catch-all turns it into a 400 like every other throw.
   */
  function Handle(rows: seq<Subscription>, catalog: seq<Bill>, now: Time, billsError: Option<string>,
                  config: VapidConfig, setupError: Option<string>, lookupFails: set<nat>, send: Sender): Handled
  {
    if billsError.Some? then Handled(Run(rows, []), Error(BadRequest, billsError.value))
    else
      var bills := BillsDueOn(catalog, Tomorrow(now));
      if bills == [] then Handled(Run(rows, []), Message(NoBillsMessage))
      else if Falsy(config.publicKey) || Falsy(config.privateKey) then
        Handled(Run(rows, []), Error(BadRequest, MissingKeysMessage))
      else if setupError.Some? then Handled(Run(rows, []), Error(BadRequest, setupError.value))
      else
        var after := ProcessBills(Run(rows, []), bills, |bills|, lookupFails, send);
        Handled(after, Report(Entries(after.attempts)))
  }

  /**
   * With no bill due tomorrow the handler answers "No bills due tomorrow"
   * before looking at the credentials: nothing is sent or deleted, even
   * with the keys missing or rejected.
   */
  lemma NoBillsNoDelivery(rows: seq<Subscription>, catalog: seq<Bill>, now: Time, config: VapidConfig,
                          setupError: Option<string>, lookupFails: set<nat>, send: Sender)
    requires forall b :: b in catalog ==> b.dueDate != DayOf(now) + 1
    ensures var h := Handle(rows, catalog, now, None, config, setupError, lookupFails, send);
      h.response == Message(NoBillsMessage) && h.run == Run(rows, [])
  {
  }

  /** With a bill due and a key missing, the run fails with 400 before any delivery. */
  lemma MissingKeysStopBeforeDelivery(rows: seq<Subscription>, catalog: seq<Bill>, now: Time, config: VapidConfig,
                                      setupError: Option<string>, lookupFails: set<nat>, send: Sender, bill: Bill)
    requires bill in catalog && bill.dueDate == DayOf(now) + 1
    requires Falsy(config.publicKey) || Falsy(config.privateKey)
    ensures var h := Handle(rows, catalog, now, None, config, setupError, lookupFails, send);
      h.response == Error(BadRequest, MissingKeysMessage) && h.run == Run(rows, [])
  {
    assert bill in BillsDueOn(catalog, Tomorrow(now));
  }

  /**
   * With a bill due and both keys present, keys the push library rejects
   * make the run fail with 400 and the library's message, before any
   * delivery.
   */
  lemma SetupErrorStopsBeforeDelivery(rows: seq<Subscription>, catalog: seq<Bill>, now: Time, config: VapidConfig,
                                      message: string, lookupFails: set<nat>, send: Sender, bill: Bill)
    requires bill in catalog && bill.dueDate == DayOf(now) + 1
    requires !Falsy(config.publicKey) && !Falsy(config.privateKey)
    ensures var h := Handle(rows, catalog, now, None, config, Some(message), lookupFails, send);
      h.response == Error(BadRequest, message) && h.run == Run(rows, [])
  {
    assert bill in BillsDueOn(catalog, Tomorrow(now));
  }

  /** Bill i whose subscription lookup fails changes nothing. */
  lemma BillSkipped(run: Run, bills: seq<Bill>, i: nat, lookupFails: set<nat>, send: Sender)
    requires i < |bills| && i in lookupFails
    ensures ProcessBills(run, bills, i + 1, lookupFails, send) == ProcessBills(run, bills, i, lookupFails, send)
  {
  }

  /**
   * Handling bill i: the owner's current subscriptions are each tried
   * exactly once, in table order, with the bill's payload and the outcome
   * `send` gives for that attempt; the earlier log is kept.
   */
  lemma BillLog(run: Run, bills: seq<Bill>, i: nat, lookupFails: set<nat>, send: Sender, before: Run, after: Run)
    requires i < |bills| && i !in lookupFails
    requires before == ProcessBills(run, bills, i, lookupFails, send)
    requires after == ProcessBills(run, bills, i + 1, lookupFails, send)
    ensures var subs := ListByUser(before.rows, bills[i].userId);
      var n := |before.attempts|;
      var p := ReminderPayload(bills[i]);
      && |after.attempts| == n + |subs|
      && after.attempts[..n] == before.attempts
      && forall j :: 0 <= j < |subs| ==> after.attempts[n + j] == Attempt(subs[j], p, send(n + j, subs[j], p))
  {
    SendAllLog(before, ListByUser(before.rows, bills[i].userId), ReminderPayload(bills[i]), send);
  }

  /** Handling bill i removes exactly the subscriptions that got a 410 meanwhile. */
  lemma BillRows(run: Run, bills: seq<Bill>, i: nat, lookupFails: set<nat>, send: Sender)
    requires i < |bills| && i !in lookupFails
    ensures var before := ProcessBills(run, bills, i, lookupFails, send);
      var after := ProcessBills(run, bills, i + 1, lookupFails, send);
      forall s :: s in after.rows <==> s in before.rows && !PrunedSince(after.attempts, |before.attempts|, s.id)
  {
    var before := ProcessBills(run, bills, i, lookupFails, send);
    SendAllRows(before, ListByUser(before.rows, bills[i].userId), ReminderPayload(bills[i]), send);
  }

  /**
   * The results a bill adds: one per subscription of its owner, the owner's
   * id on success and the error message on failure.
   */
  lemma BillResults(run: Run, bills: seq<Bill>, i: nat, lookupFails: set<nat>, send: Sender, before: Run, after: Run)
    requires i < |bills| && i !in lookupFails
    requires before == ProcessBills(run, bills, i, lookupFails, send)
    requires after == ProcessBills(run, bills, i + 1, lookupFails, send)
    ensures var subs := ListByUser(before.rows, bills[i].userId);
      var n := |before.attempts|;
      && |Entries(after.attempts)| == n + |subs|
      && Entries(after.attempts)[..n] == Entries(before.attempts)
      && forall j :: 0 <= j < |subs| ==>
           var o := send(n + j, subs[j], ReminderPayload(bills[i]));
           Entries(after.attempts)[n + j] == if o.Delivered? then Sent(bills[i].userId) else NotSent(o.message)
  {
    BillLog(run, bills, i, lookupFails, send, before, after);
    ResultsAt(before.attempts, EntryOf);
    ResultsAt(after.attempts, EntryOf);
    var subs := ListByUser(before.rows, bills[i].userId);
    var n := |before.attempts|;
    forall j | 0 <= j < |subs| ensures subs[j].userId == bills[i].userId {
      assert subs[j] in subs;
    }
    assert forall k :: 0 <= k < n ==> after.attempts[k] == before.attempts[k];
  }

  /**
   * Over the whole run the table changes only by 410 pruning: a row
   * survives iff no attempt on its id got a 410.
   */
  lemma {:induction false} RunRows(run: Run, bills: seq<Bill>, count: nat, lookupFails: set<nat>, send: Sender)
    requires count <= |bills|
    ensures var after := ProcessBills(run, bills, count, lookupFails, send);
      && |run.attempts| <= |after.attempts|
      && after.attempts[..|run.attempts|] == run.attempts
      && forall s :: s in after.rows <==> s in run.rows && !PrunedSince(after.attempts, |run.attempts|, s.id)
  {
    if count != 0 {
      var i := count - 1;
      RunRows(run, bills, i, lookupFails, send);
      var before := ProcessBills(run, bills, i, lookupFails, send);
      var after := ProcessBills(run, bills, count, lookupFails, send);
      var n := |before.attempts|;
      if i in lookupFails {
        BillSkipped(run, bills, i, lookupFails, send);
      } else {
        BillLog(run, bills, i, lookupFails, send, before, after);
        BillRows(run, bills, i, lookupFails, send);
      }
      assert forall k :: 0 <= k < n ==> after.attempts[k] == before.attempts[k];
      forall s ensures s in after.rows <==> s in run.rows && !PrunedSince(after.attempts, |run.attempts|, s.id) {
        if PrunedSince(after.attempts, |run.attempts|, s.id) {
          var k :| |run.attempts| <= k < |after.attempts| && after.attempts[k].sub.id == s.id
                   && IsGone(after.attempts[k].outcome);
          if k < n {
            assert PrunedSince(before.attempts, |run.attempts|, s.id);
          } else {
            assert PrunedSince(after.attempts, n, s.id);
          }
        }
      }
      assert after.attempts[..|run.attempts|] == run.attempts;
    }
  }

  /**
   * Subscriptions are re-read for every bill, so one pruned while handling
   * a bill is never tried again in the same run, not even for a later bill
   * of the same owner; and every pruned one is gone from the table.
   */
  lemma {:induction false} NoRetryAcrossBills(run: Run, bills: seq<Bill>, count: nat, lookupFails: set<nat>, send: Sender)
    requires count <= |bills|
    requires UniqueIds(run.rows) && UniqueEndpoints(run.rows)
    requires GoneAreRemoved(run) && NoRetryAfterGone(run.attempts)
    ensures var after := ProcessBills(run, bills, count, lookupFails, send);
      && UniqueIds(after.rows) && UniqueEndpoints(after.rows)
      && GoneAreRemoved(after) && NoRetryAfterGone(after.attempts)
  {
    if count != 0 {
      var i := count - 1;
      NoRetryAcrossBills(run, bills, i, lookupFails, send);
      var before := ProcessBills(run, bills, i, lookupFails, send);
      if i !in lookupFails {
        var subs := ListByUser(before.rows, bills[i].userId);
        SendAllNoRetry(before, subs, ReminderPayload(bills[i]), send);
        SendAllKeepsUnique(before, subs, ReminderPayload(bills[i]), send);
      }
    }
  }

  /**
   * The inner loop for one bill: try `payload` on each of `subs`, deleting
   * on 410, appending one result per subscription.
   */
  method NotifyOwner(reg: Registry, bill: Bill, subs: seq<Subscription>, payload: Payload, send: Sender,
                     results: seq<Entry>, ghost run: Run)
    returns (results': seq<Entry>, ghost run': Run)
    requires reg.rows == run.rows && results == Entries(run.attempts)
    requires forall s :: s in subs ==> s.userId == bill.userId
    modifies reg
    ensures reg.nextId == old(reg.nextId)
    ensures run' == SendAll(run, subs, payload, send)
    ensures reg.rows == run'.rows && results' == Entries(run'.attempts)
  {
    results', run' := results, run;
    var j := 0;
    while j < |subs|
      invariant 0 <= j <= |subs|
      invariant reg.nextId == old(reg.nextId)
      invariant run' == SendAll(run, subs[..j], payload, send)
      invariant reg.rows == run'.rows && results' == Entries(run'.attempts)
    {
      var sub := subs[j];
      assert sub in subs;
      var outcome := send(|results'|, sub, payload);
      if IsGone(outcome) {
        reg.Delete(sub.id);
      }
      results' := results' + [if outcome.Delivered? then Sent(bill.userId) else NotSent(outcome.message)];
      assert subs[..j + 1][..j] == subs[..j];
      run' := Step(run', sub, payload, send);
      j := j + 1;
    }
    assert subs[..j] == subs;
  }

  /**
   * The state of the handler after the first `count` bills: the table and
   * the results list agree with the specification's run.
   */
  ghost predicate Reached(reg: Registry, results: seq<Entry>, start: Run, bills: seq<Bill>, count: nat,
                          lookupFails: set<nat>, send: Sender)
    requires count <= |bills|
    reads reg
  {
    var run := ProcessBills(start, bills, count, lookupFails, send);
    reg.rows == run.rows && results == Entries(run.attempts)
  }

  /** One bill of the outer loop: skipped when its lookup failed, otherwise the inner loop. */
  method RemindOne(reg: Registry, bills: seq<Bill>, i: nat, lookupFails: set<nat>, send: Sender,
                   results: seq<Entry>, ghost start: Run)
    returns (results': seq<Entry>)
    requires i < |bills| && Reached(reg, results, start, bills, i, lookupFails, send)
    modifies reg
    ensures reg.nextId == old(reg.nextId)
    ensures Reached(reg, results', start, bills, i + 1, lookupFails, send)
  {
    ghost var run := ProcessBills(start, bills, i, lookupFails, send);
    results' := results;
    if i !in lookupFails {
      var subs := ListByUser(reg.rows, bills[i].userId);
      ghost var run';
      results', run' := NotifyOwner(reg, bills[i], subs, ReminderPayload(bills[i]), send, results, run);
    }
  }

  /** The loop over the selected bills, over the subscription table `reg`. */
  method RemindAll(reg: Registry, bills: seq<Bill>, lookupFails: set<nat>, send: Sender)
    returns (results: seq<Entry>)
    modifies reg
    ensures reg.nextId == old(reg.nextId)
    ensures var after := ProcessBills(Run(old(reg.rows), []), bills, |bills|, lookupFails, send);
      reg.rows == after.rows && results == Entries(after.attempts)
  {
    results := [];
    ghost var start := Run(reg.rows, []);
    var i := 0;
    while i < |bills|
      invariant 0 <= i <= |bills|
      invariant reg.nextId == old(reg.nextId)
      invariant Reached(reg, results, start, bills, i, lookupFails, send)
    {
      results := RemindOne(reg, bills, i, lookupFails, send, results, start);
      i := i + 1;
    }
  }

  /** The handler itself, over the subscription table `reg`. */
  method HandleReminders(reg: Registry, catalog: seq<Bill>, now: Time, billsError: Option<string>,
                         config: VapidConfig, setupError: Option<string>, lookupFails: set<nat>, send: Sender)
    returns (response: Response)
    modifies reg
    ensures reg.nextId == old(reg.nextId)
    ensures var h := Handle(old(reg.rows), catalog, now, billsError, config, setupError, lookupFails, send);
      reg.rows == h.run.rows && response == h.response
  {
    if billsError.Some? {
      return Error(BadRequest, billsError.value);
    }
    var bills := BillsDueOn(catalog, Tomorrow(now));
    if |bills| == 0 {
      return Message(NoBillsMessage);
    }
    if Falsy(config.publicKey) || Falsy(config.privateKey) {
      return Error(BadRequest, MissingKeysMessage);
    }
    if setupError.Some? {
      return Error(BadRequest, setupError.value);
    }
    var results := RemindAll(reg, bills, lookupFails, send);
    response := Report(results);
  }
}
