/**
 * The `push_subscriptions` table: rows keyed by `id`, with `endpoint`
 * unique. Rows are kept in insertion order, the order a query without
 * ORDER BY returns them in this model.
 */
module Subscriptions {
  import opened Wrappers

  type SubId = nat
  type UserId = string

  /** The `keys` bundle of a browser push subscription. */
  datatype Keys = Keys(p256dh: string, auth: string)

  datatype Subscription = Subscription(id: SubId, userId: UserId, endpoint: string, keys: Keys)

  ghost predicate UniqueIds(rows: seq<Subscription>) {
    forall i, j :: 0 <= i < j < |rows| ==> rows[i].id != rows[j].id
  }

  ghost predicate UniqueEndpoints(rows: seq<Subscription>) {
    forall i, j :: 0 <= i < j < |rows| ==> rows[i].endpoint != rows[j].endpoint
  }

  /** The rows satisfying `keep`, in their original order. */
  function Filter(rows: seq<Subscription>, keep: Subscription -> bool): (r: seq<Subscription>)
    ensures |r| <= |rows|
    ensures forall s :: s in r <==> s in rows && keep(s)
  {
    if rows == [] then []
    else (if keep(rows[0]) then [rows[0]] else []) + Filter(rows[1..], keep)
  }

  /** Filtering keeps ids unique. */
  lemma {:induction false} FilterUniqueIds(rows: seq<Subscription>, keep: Subscription -> bool)
    ensures UniqueIds(rows) ==> UniqueIds(Filter(rows, keep))
  {
    if rows != [] && UniqueIds(rows) {
      var tail := rows[1..];
      FilterUniqueIds(tail, keep);
      forall s | s in Filter(tail, keep) ensures s.id != rows[0].id {
        var i :| 0 <= i < |tail| && tail[i] == s;
        assert rows[i + 1] == s;
      }
    }
  }

  /** Filtering keeps endpoints unique. */
  lemma {:induction false} FilterUniqueEndpoints(rows: seq<Subscription>, keep: Subscription -> bool)
    ensures UniqueEndpoints(rows) ==> UniqueEndpoints(Filter(rows, keep))
  {
    if rows != [] && UniqueEndpoints(rows) {
      var tail := rows[1..];
      FilterUniqueEndpoints(tail, keep);
      forall s | s in Filter(tail, keep) ensures s.endpoint != rows[0].endpoint {
        var i :| 0 <= i < |tail| && tail[i] == s;
        assert rows[i + 1] == s;
      }
    }
  }

  /** `.select('*').eq('user_id', user)` */
  function ListByUser(rows: seq<Subscription>, user: UserId): (r: seq<Subscription>)
    ensures forall s :: s in r <==> s in rows && s.userId == user
    ensures UniqueIds(rows) && UniqueEndpoints(rows) ==> UniqueIds(r) && UniqueEndpoints(r)
  {
    var keep := (s: Subscription) => s.userId == user;
    FilterUniqueIds(rows, keep);
    FilterUniqueEndpoints(rows, keep);
    Filter(rows, keep)
  }

  /** `.delete().eq('id', id)`: deleting an absent id changes nothing. */
  function DeleteById(rows: seq<Subscription>, id: SubId): (r: seq<Subscription>)
    ensures forall s :: s in r <==> s in rows && s.id != id
    ensures (forall s :: s in rows ==> s.id != id) ==> r == rows
    ensures UniqueIds(rows) && UniqueEndpoints(rows) ==> UniqueIds(r) && UniqueEndpoints(r)
  {
    var keep := (s: Subscription) => s.id != id;
    FilterUniqueIds(rows, keep);
    FilterUniqueEndpoints(rows, keep);
    FilterAll(rows, keep);
    Filter(rows, keep)
  }

  lemma {:induction false} FilterAll(rows: seq<Subscription>, keep: Subscription -> bool)
    ensures (forall s :: s in rows ==> keep(s)) ==> Filter(rows, keep) == rows
  {
    if rows != [] && forall s :: s in rows ==> keep(s) {
      assert forall s :: s in rows[1..] ==> s in rows;
      FilterAll(rows[1..], keep);
    }
  }

  /** The index of the row holding `endpoint`, if there is one. */
  function FindEndpoint(rows: seq<Subscription>, endpoint: string): (r: Option<nat>)
    ensures r.Some? ==> r.value < |rows| && rows[r.value].endpoint == endpoint
    ensures r.Some? ==> forall j :: 0 <= j < r.value ==> rows[j].endpoint != endpoint
    ensures r.None? <==> forall s :: s in rows ==> s.endpoint != endpoint
  {
    if rows == [] then None
    else if rows[0].endpoint == endpoint then Some(0)
    else match FindEndpoint(rows[1..], endpoint)
      case None => None
      case Some(i) => Some(i + 1)
  }

  /**
   * `.upsert({user_id, endpoint, keys}, { onConflict: 'endpoint' })`: the
   * row already holding the endpoint keeps its id and takes the new user
   * and keys; otherwise a row with the fresh id is appended.
   */
  function UpsertByEndpoint(rows: seq<Subscription>, user: UserId, endpoint: string, keys: Keys, freshId: SubId)
    : seq<Subscription>
  {
    match FindEndpoint(rows, endpoint)
    case Some(i) => rows[i := rows[i].(userId := user, keys := keys)]
    case None => rows + [Subscription(freshId, user, endpoint, keys)]
  }

  /**
   * After an upsert exactly one row holds the endpoint, and it carries the
   * given user and keys; a known endpoint adds no row; rows on other
   * endpoints are untouched; ids and endpoints stay unique.
   */
  lemma UpsertEffect(rows: seq<Subscription>, user: UserId, endpoint: string, keys: Keys, freshId: SubId)
    requires UniqueIds(rows) && UniqueEndpoints(rows)
    requires forall s :: s in rows ==> s.id != freshId
    ensures var r := UpsertByEndpoint(rows, user, endpoint, keys, freshId);
      && UniqueIds(r) && UniqueEndpoints(r)
      && (exists i :: 0 <= i < |r| && r[i].endpoint == endpoint && r[i].userId == user && r[i].keys == keys)
      && (forall s :: s in r && s.endpoint != endpoint <==> s in rows && s.endpoint != endpoint)
      && |r| == (if FindEndpoint(rows, endpoint).Some? then |rows| else |rows| + 1)
  {
    var r := UpsertByEndpoint(rows, user, endpoint, keys, freshId);
    match FindEndpoint(rows, endpoint)
    case Some(i) =>
      assert r[i].endpoint == endpoint;
      forall s | s in rows && s.endpoint != endpoint ensures s in r {
        var j :| 0 <= j < |rows| && rows[j] == s;
        assert r[j] == s;
      }
    case None =>
      assert r[|rows|].endpoint == endpoint;
  }

  /** Registering the same endpoint twice leaves the table as once. */
  lemma UpsertIdempotent(rows: seq<Subscription>, user: UserId, endpoint: string, keys: Keys, freshId: SubId, otherId: SubId)
    requires UniqueEndpoints(rows)
    ensures var once := UpsertByEndpoint(rows, user, endpoint, keys, freshId);
      UpsertByEndpoint(once, user, endpoint, keys, otherId) == once
  {
    var once := UpsertByEndpoint(rows, user, endpoint, keys, freshId);
    match FindEndpoint(rows, endpoint)
    case Some(i) =>
      assert forall j :: 0 <= j < |once| && j != i ==> once[j].endpoint != endpoint;
      assert once[i].endpoint == endpoint && once[i] in once;
      var f := FindEndpoint(once, endpoint);
      assert f.Some?;
      assert f == Some(i);
    case None =>
      assert forall j :: 0 <= j < |rows| ==> once[j] == rows[j];
      var f := FindEndpoint(once, endpoint);
      assert f == Some(|rows|);
  }

  /** The table as one mutable store; `nextId` stands for the database's id generator. */
  class Registry {
    var rows: seq<Subscription>
    var nextId: SubId

    ghost predicate Valid()
      reads this
    {
      && UniqueIds(rows)
      && UniqueEndpoints(rows)
      && forall s :: s in rows ==> s.id < nextId
    }

    constructor (initial: seq<Subscription>, nextId: SubId)
      requires UniqueIds(initial) && UniqueEndpoints(initial)
      requires forall s :: s in initial ==> s.id < nextId
      ensures Valid() && rows == initial && this.nextId == nextId
    {
      rows := initial;
      this.nextId := nextId;
    }

    method Upsert(user: UserId, endpoint: string, keys: Keys)
      requires Valid()
      modifies this
      ensures Valid()
      ensures rows == UpsertByEndpoint(old(rows), user, endpoint, keys, old(nextId))
    {
      UpsertEffect(rows, user, endpoint, keys, nextId);
      var r := UpsertByEndpoint(rows, user, endpoint, keys, nextId);
      forall s | s in r ensures s.id < nextId + 1 {
        match FindEndpoint(rows, endpoint)
        case Some(i) =>
          var j :| 0 <= j < |r| && r[j] == s;
          assert j == i || r[j] == rows[j];
        case None =>
      }
      rows := r;
      nextId := nextId + 1;
    }

    method Delete(id: SubId)
      modifies this
      ensures old(Valid()) ==> Valid()
      ensures rows == DeleteById(old(rows), id) && nextId == old(nextId)
    {
      rows := DeleteById(rows, id);
    }
  }
}
