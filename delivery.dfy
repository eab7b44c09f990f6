/**
 * Attempting one payload on a list of subscriptions, the inner loop both
 * push handlers share: every subscription is tried once, in order; a
 * rejection with status 410 ("Gone", section 15.5.11 of RFC 9110) deletes
 * that subscription by id, and every other outcome leaves the table alone.
 *
 * The push service is not modelled: `send` gives the outcome of the n-th
 * delivery attempt of a run, so any behaviour of the service is one choice
 * of `send`.
 */
module Delivery {
  import opened Wrappers
  import opened Subscriptions

  /** The JSON object the handlers stringify: `{ title, body, url }`. */
  datatype Payload = Payload(title: string, body: string, url: string)

  /** What `webpush.sendNotification` does: resolve, or reject with an error carrying an optional `statusCode`. */
  datatype Outcome = Delivered | Rejected(statusCode: Option<int>, message: string)

  const GoneStatus: int := 410

  predicate IsGone(o: Outcome) {
    o.Rejected? && o.statusCode == Some(GoneStatus)
  }

  type Sender = (nat, Subscription, Payload) -> Outcome

  datatype Attempt = Attempt(sub: Subscription, payload: Payload, outcome: Outcome)

  /** The table and the log of attempts made so far in one handler run. */
  datatype Run = Run(rows: seq<Subscription>, attempts: seq<Attempt>)

  /** One iteration of `for (const sub of subs)`. */
  function Step(run: Run, sub: Subscription, payload: Payload, send: Sender): Run {
    var o := send(|run.attempts|, sub, payload);
    Run(if IsGone(o) then DeleteById(run.rows, sub.id) else run.rows,
        run.attempts + [Attempt(sub, payload, o)])
  }

  /** The whole loop over `subs`. */
  function SendAll(run: Run, subs: seq<Subscription>, payload: Payload, send: Sender): Run
    decreases |subs|
  {
    if subs == [] then run
    else Step(SendAll(run, subs[..|subs| - 1], payload, send), subs[|subs| - 1], payload, send)
  }

  /**
   * A handler's `results` list: one entry per attempt, in attempt order, each
   * made from its attempt by `entry` (the handlers differ only in what a
   * success entry carries).
   */
  function Results<E>(attempts: seq<Attempt>, entry: Attempt -> E): (r: seq<E>)
    ensures |r| == |attempts|
  {
    if attempts == [] then []
    else Results(attempts[..|attempts| - 1], entry) + [entry(attempts[|attempts| - 1])]
  }

  /** Result k reports attempt k. */
  lemma {:induction false} ResultsAt<E>(attempts: seq<Attempt>, entry: Attempt -> E)
    ensures forall k :: 0 <= k < |attempts| ==> Results(attempts, entry)[k] == entry(attempts[k])
    decreases |attempts|
  {
    if attempts != [] {
      ResultsAt(attempts[..|attempts| - 1], entry);
    }
  }

  /** Some attempt at index `from` or later got a 410 for subscription `id`. */
  ghost predicate PrunedSince(attempts: seq<Attempt>, from: nat, id: SubId) {
    exists k :: from <= k < |attempts| && attempts[k].sub.id == id && IsGone(attempts[k].outcome)
  }

  /**
   * One attempt per subscription, in list order, each with the same payload
   * and with the outcome `send` gives for that attempt, whatever happened to
   * the attempts before it; the earlier log is kept.
   */
  lemma {:induction false} SendAllLog(run: Run, subs: seq<Subscription>, payload: Payload, send: Sender)
    ensures var after := SendAll(run, subs, payload, send);
      && |after.attempts| == |run.attempts| + |subs|
      && after.attempts[..|run.attempts|] == run.attempts
      && forall j :: 0 <= j < |subs| ==>
           after.attempts[|run.attempts| + j]
             == Attempt(subs[j], payload, send(|run.attempts| + j, subs[j], payload))
    decreases |subs|
  {
    if subs != [] {
      var init := subs[..|subs| - 1];
      SendAllLog(run, init, payload, send);
      var mid := SendAll(run, init, payload, send);
      var after := SendAll(run, subs, payload, send);
      assert after.attempts == mid.attempts + [after.attempts[|after.attempts| - 1]];
      forall j | 0 <= j < |subs|
        ensures after.attempts[|run.attempts| + j]
             == Attempt(subs[j], payload, send(|run.attempts| + j, subs[j], payload))
      {
        if j < |init| {
          assert subs[j] == init[j];
        }
      }
    }
  }

  /**
   * After the loop the table holds exactly the rows it held before, minus
   * those whose id received a 410 during the loop.
   */
  lemma {:induction false} SendAllRows(run: Run, subs: seq<Subscription>, payload: Payload, send: Sender)
    ensures var after := SendAll(run, subs, payload, send);
      forall s :: s in after.rows <==> s in run.rows && !PrunedSince(after.attempts, |run.attempts|, s.id)
    decreases |subs|
  {
    if subs != [] {
      var init := subs[..|subs| - 1];
      SendAllRows(run, init, payload, send);
      SendAllLog(run, init, payload, send);
      var mid := SendAll(run, init, payload, send);
      var after := SendAll(run, subs, payload, send);
      var last := |after.attempts| - 1;
      assert after.attempts == mid.attempts + [after.attempts[last]];
      forall s
        ensures s in after.rows <==> s in run.rows && !PrunedSince(after.attempts, |run.attempts|, s.id)
      {
        if PrunedSince(after.attempts, |run.attempts|, s.id) {
          var k :| |run.attempts| <= k < |after.attempts| && after.attempts[k].sub.id == s.id
                   && IsGone(after.attempts[k].outcome);
          if k < last {
            assert after.attempts[k] == mid.attempts[k];
            assert PrunedSince(mid.attempts, |run.attempts|, s.id);
          }
        } else {
          assert forall k :: 0 <= k < |mid.attempts| ==> after.attempts[k] == mid.attempts[k];
        }
      }
    }
  }

  predicate HasId(rows: seq<Subscription>, id: SubId) {
    exists s :: s in rows && s.id == id
  }

  /** No attempt follows a 410 for the same subscription. */
  ghost predicate NoRetryAfterGone(attempts: seq<Attempt>) {
    forall k, k' :: 0 <= k < k' < |attempts| && IsGone(attempts[k].outcome)
      ==> attempts[k'].sub.id != attempts[k].sub.id
  }

  /** Every subscription that got a 410 is gone from the table. */
  ghost predicate GoneAreRemoved(run: Run) {
    forall k :: 0 <= k < |run.attempts| && IsGone(run.attempts[k].outcome)
      ==> !HasId(run.rows, run.attempts[k].sub.id)
  }

  /** The last of a list of distinct subscriptions drawn from the table is still there when its turn comes. */
  lemma LastStillPresent(run: Run, subs: seq<Subscription>, payload: Payload, send: Sender)
    requires subs != [] && UniqueIds(subs)
    requires forall s :: s in subs ==> s in run.rows
    ensures subs[|subs| - 1] in SendAll(run, subs[..|subs| - 1], payload, send).rows
  {
    var init := subs[..|subs| - 1];
    var sub := subs[|subs| - 1];
    SendAllRows(run, init, payload, send);
    SendAllLog(run, init, payload, send);
    var mid := SendAll(run, init, payload, send);
    forall k | |run.attempts| <= k < |mid.attempts|
      ensures mid.attempts[k].sub.id != sub.id
    {
      assert mid.attempts[k].sub == subs[k - |run.attempts|];
    }
  }

  /**
   * Trying a list of distinct subscriptions drawn from the table never
   * retries one that has already been pruned, and prunes every one that
   * gets a 410.
   */
  lemma {:induction false} SendAllNoRetry(run: Run, subs: seq<Subscription>, payload: Payload, send: Sender)
    requires UniqueIds(subs)
    requires forall s :: s in subs ==> s in run.rows
    requires GoneAreRemoved(run) && NoRetryAfterGone(run.attempts)
    ensures var after := SendAll(run, subs, payload, send);
      GoneAreRemoved(after) && NoRetryAfterGone(after.attempts)
    decreases |subs|
  {
    if subs != [] {
      var init := subs[..|subs| - 1];
      var sub := subs[|subs| - 1];
      assert forall s :: s in init ==> s in subs;
      SendAllNoRetry(run, init, payload, send);
      var mid := SendAll(run, init, payload, send);
      var after := SendAll(run, subs, payload, send);
      LastStillPresent(run, subs, payload, send);
      var last := |after.attempts| - 1;
      assert after.attempts == mid.attempts + [Attempt(sub, payload, after.attempts[last].outcome)];
      forall k | 0 <= k < |after.attempts| && IsGone(after.attempts[k].outcome)
        ensures !HasId(after.rows, after.attempts[k].sub.id)
      {
        if k < last {
          assert after.attempts[k] == mid.attempts[k];
          assert !HasId(mid.rows, mid.attempts[k].sub.id);
        }
      }
      forall k, k' | 0 <= k < k' < |after.attempts| && IsGone(after.attempts[k].outcome)
        ensures after.attempts[k'].sub.id != after.attempts[k].sub.id
      {
        assert after.attempts[k] == mid.attempts[k];
        if k' == last {
          assert !HasId(mid.rows, mid.attempts[k].sub.id);
        } else {
          assert after.attempts[k'] == mid.attempts[k'];
        }
      }
    }
  }

  /** The loop only deletes rows, so ids and endpoints stay unique. */
  lemma {:induction false} SendAllKeepsUnique(run: Run, subs: seq<Subscription>, payload: Payload, send: Sender)
    requires UniqueIds(run.rows) && UniqueEndpoints(run.rows)
    ensures var after := SendAll(run, subs, payload, send);
      UniqueIds(after.rows) && UniqueEndpoints(after.rows)
    decreases |subs|
  {
    if subs != [] {
      SendAllKeepsUnique(run, subs[..|subs| - 1], payload, send);
    }
  }
}
