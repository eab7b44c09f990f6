/**
 * The `send-test-notification` edge function: read `user_id` from the
 * request body, configure the push credentials, look up that user's
 * subscriptions once, push a fixed test message to each of them in turn,
 * prune those the push service reports as gone, and answer with one result
 * per subscription.
 */
module SendTestNotification {
  import opened Wrappers
  import opened Subscriptions
  import opened Delivery

  /**
   * The request: a body that does not parse as JSON (the parser's message),
   * or a JSON body whose `user_id` may be absent.
   */
  datatype Request = Malformed(message: string) | Body(userId: Option<UserId>)

  /** `{ success: true, id }` or `{ success: false, error }`. */
  datatype Entry = Sent(id: SubId) | NotSent(error: string)

  /** The JSON the handler answers with; `Error` is the catch-all 400 response. */
  datatype Response = Message(text: string) | Report(results: seq<Entry>) | Error(status: int, message: string)

  const NoSubscriptionsMessage: string := "No subscriptions found"
  const BadRequest: int := 400

  /** The fixed test message, sent to every subscription of the user. */
  const TestPayload: Payload :=
    Payload("Teste de Notificação 🔔",
            "Se você está lendo isso, o sistema de alertas está funcionando perfeitamente!",
            "/")

  function EntryOf(a: Attempt): Entry {
    if a.outcome.Delivered? then Sent(a.sub.id) else NotSent(a.outcome.message)
  }

  /** The `results` list: one entry per attempt, in attempt order. */
  function Entries(attempts: seq<Attempt>): seq<Entry> {
    Results(attempts, EntryOf)
  }

  /**
   * The subscriptions the query returns: none for a missing `user_id` or a
   * failed query, otherwise the user's rows in table order.
   */
  function Lookup(rows: seq<Subscription>, userId: Option<UserId>, lookupFailed: bool): (r: seq<Subscription>)
    ensures forall s :: s in r <==> !lookupFailed && userId.Some? && s in rows && s.userId == userId.value
  {
    if lookupFailed || userId.None? then [] else ListByUser(rows, userId.value)
  }

  datatype Handled = Handled(run: Run, response: Response)

  /**
   * The whole handler run. `setupError` is the exception the credential
   * set-up may throw; `lookupFailed` says the subscription query returned
   * an error.
   */
  function Handle(rows: seq<Subscription>, req: Request, setupError: Option<string>, lookupFailed: bool,
                  send: Sender): Handled
  {
    match req
    case Malformed(m) => Handled(Run(rows, []), Error(BadRequest, m))
    case Body(userId) =>
      if setupError.Some? then Handled(Run(rows, []), Error(BadRequest, setupError.value))
      else
        var subs := Lookup(rows, userId, lookupFailed);
        if subs == [] then Handled(Run(rows, []), Message(NoSubscriptionsMessage))
        else
          var after := SendAll(Run(rows, []), subs, TestPayload, send);
          Handled(after, Report(Entries(after.attempts)))
  }

  /** A body that is not JSON, or a failing credential set-up, is answered with 400 and changes nothing. */
  lemma BadRequestChangesNothing(rows: seq<Subscription>, req: Request, setupError: Option<string>,
                                 lookupFailed: bool, send: Sender)
    requires req.Malformed? || setupError.Some?
    ensures var h := Handle(rows, req, setupError, lookupFailed, send);
      && h.run == Run(rows, [])
      && h.response == Error(BadRequest, if req.Malformed? then req.message else setupError.value)
  {
  }

  /** A user with no subscriptions (or no user, or a failed query) gets the message and nothing is sent. */
  lemma NoSubscriptionsNoDelivery(rows: seq<Subscription>, userId: Option<UserId>, lookupFailed: bool, send: Sender)
    requires lookupFailed || userId.None? || forall s :: s in rows ==> s.userId != userId.value
    ensures var h := Handle(rows, Body(userId), None, lookupFailed, send);
      h.run == Run(rows, []) && h.response == Message(NoSubscriptionsMessage)
  {
  }

  /**
   * With subscriptions found, the answer lists one result per subscription,
   * in table order: its id on success, the error message otherwise; every
   * attempt carries the test payload.
   */
  lemma OneResultPerSubscription(rows: seq<Subscription>, user: UserId, send: Sender)
    requires ListByUser(rows, user) != []
    ensures var subs := ListByUser(rows, user);
      var h := Handle(rows, Body(Some(user)), None, false, send);
      && h.response.Report?
      && |h.response.results| == |subs|
      && forall j :: 0 <= j < |subs| ==>
           var o := send(j, subs[j], TestPayload);
           h.response.results[j] == if o.Delivered? then Sent(subs[j].id) else NotSent(o.message)
  {
    var subs := ListByUser(rows, user);
    var after := SendAll(Run(rows, []), subs, TestPayload, send);
    SendAllLog(Run(rows, []), subs, TestPayload, send);
    ResultsAt(after.attempts, EntryOf);
  }

  /**
   * Only 410 prunes: a row is gone afterwards exactly when an attempt on its
   * id got a 410, and the rows of other users are never touched.
   */
  lemma PrunesOnlyGone(rows: seq<Subscription>, user: UserId, send: Sender)
    requires UniqueIds(rows)
    ensures var h := Handle(rows, Body(Some(user)), None, false, send);
      && (forall s :: s in h.run.rows <==> s in rows && !PrunedSince(h.run.attempts, 0, s.id))
      && (forall s :: s in rows && s.userId != user ==> s in h.run.rows)
  {
    var subs := ListByUser(rows, user);
    if subs != [] {
      SendAllRows(Run(rows, []), subs, TestPayload, send);
      OtherUsersNotTried(rows, user, send);
    }
  }

  /** Every attempt is on one of the user's rows, so no row of another user is pruned. */
  lemma OtherUsersNotTried(rows: seq<Subscription>, user: UserId, send: Sender)
    requires UniqueIds(rows)
    ensures var after := SendAll(Run(rows, []), ListByUser(rows, user), TestPayload, send);
      forall s :: s in rows && s.userId != user ==> !PrunedSince(after.attempts, 0, s.id)
  {
    var subs := ListByUser(rows, user);
    var after := SendAll(Run(rows, []), subs, TestPayload, send);
    SendAllLog(Run(rows, []), subs, TestPayload, send);
    forall s | s in rows && s.userId != user ensures !PrunedSince(after.attempts, 0, s.id) {
      forall k | 0 <= k < |after.attempts| ensures after.attempts[k].sub.id != s.id {
        var t := subs[k];
        assert t in subs;
        var a :| 0 <= a < |rows| && rows[a] == s;
        var b :| 0 <= b < |rows| && rows[b] == t;
        assert a != b;
      }
    }
  }

  /** The loop over the snapshot `subs`, over the subscription table `reg`. */
  method TryAll(reg: Registry, subs: seq<Subscription>, send: Sender, ghost start: Run) returns (results: seq<Entry>)
    requires start.attempts == [] && reg.rows == start.rows
    modifies reg
    ensures reg.nextId == old(reg.nextId)
    ensures var after := SendAll(start, subs, TestPayload, send);
      reg.rows == after.rows && results == Entries(after.attempts)
  {
    results := [];
    ghost var run := start;
    var j := 0;
    while j < |subs|
      invariant 0 <= j <= |subs|
      invariant reg.nextId == old(reg.nextId)
      invariant run == SendAll(start, subs[..j], TestPayload, send)
      invariant reg.rows == run.rows && results == Entries(run.attempts)
    {
      var sub := subs[j];
      var outcome := send(|results|, sub, TestPayload);
      if IsGone(outcome) {
        reg.Delete(sub.id);
      }
      results := results + [if outcome.Delivered? then Sent(sub.id) else NotSent(outcome.message)];
      assert subs[..j + 1][..j] == subs[..j];
      run := Step(run, sub, TestPayload, send);
      j := j + 1;
    }
    assert subs[..j] == subs;
  }

  /** The handler itself, over the subscription table `reg`. */
  method HandleTest(reg: Registry, req: Request, setupError: Option<string>, lookupFailed: bool, send: Sender)
    returns (response: Response)
    modifies reg
    ensures reg.nextId == old(reg.nextId)
    ensures var h := Handle(old(reg.rows), req, setupError, lookupFailed, send);
      reg.rows == h.run.rows && response == h.response
  {
    if req.Malformed? {
      return Error(BadRequest, req.message);
    }
    if setupError.Some? {
      return Error(BadRequest, setupError.value);
    }
    var subs := Lookup(reg.rows, req.userId, lookupFailed);
    if |subs| == 0 {
      return Message(NoSubscriptionsMessage);
    }
    var results := TryAll(reg, subs, send, Run(reg.rows, []));
    response := Report(results);
  }
}
