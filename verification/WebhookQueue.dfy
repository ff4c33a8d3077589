// internal/store/webhooks.go: the webhook_endpoints and webhook_deliveries tables and the
// statements run on them.
//
// A delivery row is named here by its endpoint and event, which its UNIQUE constraint makes
// a key of the table; the surrogate id the statements use stands for the same row.
module WebhookQueue {
  import opened Prelude
  import opened Utf8

  datatype Endpoint = Endpoint(url: string, secret: Bytes, active: bool)

  datatype Key = Key(endpoint: int, eventId: string)

  datatype Status = Pending | Delivering | Delivered | Failed

  datatype Delivery = Delivery(messageId: string, payload: Bytes, status: Status, attempts: nat, nextAttempt: int,
                               lockedUntil: Option<int>, lastError: Option<Bytes>)

  const MAX_ERROR := 500

  function ActiveIds(endpoints: map<int, Endpoint>): set<int> {
    set e | e in endpoints && endpoints[e].active
  }

  // The rows one event adds: one for each active endpoint that has none for it yet.
  function NewKeys(endpoints: map<int, Endpoint>, rows: map<Key, Delivery>, eventId: string): set<Key> {
    set e | e in ActiveIds(endpoints) && Key(e, eventId) !in rows :: Key(e, eventId)
  }

  function EnqueueRows(endpoints: map<int, Endpoint>, rows: map<Key, Delivery>, eventId: string, messageId: string,
                       payload: Bytes, now: int): map<Key, Delivery> {
    rows + map k | k in NewKeys(endpoints, rows, eventId) :: Delivery(messageId, payload, Pending, 0, now, None, None)
  }

  predicate Due(d: Delivery, now: int) {
    d.status == Pending && d.nextAttempt <= now && (d.lockedUntil.None? || d.lockedUntil.value < now)
  }

  ghost predicate IsClaim(rows: map<Key, Delivery>, now: int, limit: nat, busy: set<Key>, picks: seq<Key>) {
    && Distinct(picks)
    && |picks| <= limit
    && (forall k :: k in picks ==> k in rows && k !in busy && Due(rows[k], now))
    && (forall k :: k in rows && k !in busy && k !in picks && Due(rows[k], now) ==>
          |picks| == limit && forall p :: p in picks ==> rows[p].nextAttempt <= rows[k].nextAttempt)
  }

  function ClaimRow(d: Delivery, now: int, lockFor: int): Delivery {
    d.(status := Delivering, attempts := d.attempts + 1, lockedUntil := Some(now + lockFor))
  }

  function ClaimRows(rows: map<Key, Delivery>, picks: seq<Key>, now: int, lockFor: int): map<Key, Delivery> {
    map k | k in rows :: if k in picks then ClaimRow(rows[k], now, lockFor) else rows[k]
  }

  // A claim starts the next attempt of each row it takes and touches no other.
  lemma ClaimMeaning(rows: map<Key, Delivery>, picks: seq<Key>, now: int, lockFor: int)
    ensures var after := ClaimRows(rows, picks, now, lockFor);
            && after.Keys == rows.Keys
            && (forall k :: k in rows && k !in picks ==> after[k] == rows[k])
            && (forall k :: k in rows && k in picks ==>
                  var d := rows[k];
                  after[k] == Delivery(d.messageId, d.payload, Delivering, d.attempts + 1, d.nextAttempt, Some(now + lockFor), d.lastError))
  {
  }

  datatype Mark = Succeed | Reschedule(at: int, reason: Bytes) | Fail(reason: Bytes)

  predicate CanMark(mark: Mark) {
    mark.Succeed? || Storable(Truncate(mark.reason, MAX_ERROR))
  }

  function MarkRow(d: Delivery, mark: Mark): Delivery {
    match mark
    case Succeed => d.(status := Delivered, lockedUntil := None)
    case Reschedule(at, reason) =>
      d.(status := Pending, nextAttempt := at, lockedUntil := None, lastError := Some(Truncate(reason, MAX_ERROR)))
    case Fail(reason) => d.(status := Failed, lockedUntil := None, lastError := Some(Truncate(reason, MAX_ERROR)))
  }

  function MarkRows(rows: map<Key, Delivery>, k: Key, mark: Mark): map<Key, Delivery> {
    if k in rows then rows[k := MarkRow(rows[k], mark)] else rows
  }

  // What each of the three statements leaves: a delivered row is done, a rescheduled one is
  // pending again and due at the time given, a failed one is done; all give up the lock and
  // keep the payload, the message and the attempts.
  lemma MarkMeaning(d: Delivery, mark: Mark)
    ensures var m := MarkRow(d, mark);
            && (m.status == Delivered <==> mark.Succeed?)
            && (m.status == Pending <==> mark.Reschedule?)
            && (m.status == Failed <==> mark.Fail?)
            && m.nextAttempt == (if mark.Reschedule? then mark.at else d.nextAttempt)
            && m.lockedUntil == None
            && m.lastError == (if mark.Succeed? then d.lastError else Some(Truncate(mark.reason, 500)))
            && (m.messageId, m.payload, m.attempts) == (d.messageId, d.payload, d.attempts)
  {
    hide Truncate;
  }

  // ---- What EnqueueDelivery promises ----

  // Afterwards each active endpoint has its one row for the event, and every row that was
  // there is untouched: the first payload is kept.
  lemma EnqueueMeaning(endpoints: map<int, Endpoint>, rows: map<Key, Delivery>, eventId: string, messageId: string,
                       payload: Bytes, now: int)
    ensures var after := EnqueueRows(endpoints, rows, eventId, messageId, payload, now);
            && (forall k :: k in rows ==> k in after && after[k] == rows[k])
            && (forall k :: k in after && k !in rows <==> k.eventId == eventId && k.endpoint in ActiveIds(endpoints) && k !in rows)
            && (forall k :: k in after && k !in rows ==>
                  after[k] == Delivery(messageId, payload, Pending, 0, now, None, None) && Due(after[k], now))
            && (forall e :: e in ActiveIds(endpoints) ==> Key(e, eventId) in after)
  {
    forall k: Key | k.eventId == eventId && k.endpoint in ActiveIds(endpoints) && k !in rows
      ensures k in NewKeys(endpoints, rows, eventId)
    {
      assert k == Key(k.endpoint, eventId);
    }
  }

  // Repeating it, with any payload and at any later time, changes nothing while no endpoint
  // is added or activated.
  lemma EnqueueTwice(endpoints: map<int, Endpoint>, later: map<int, Endpoint>, rows: map<Key, Delivery>, eventId: string,
                     messageId: string, payload: Bytes, now: int, messageId': string, payload': Bytes, now': int)
    requires ActiveIds(later) <= ActiveIds(endpoints)
    ensures var once := EnqueueRows(endpoints, rows, eventId, messageId, payload, now);
            EnqueueRows(later, once, eventId, messageId', payload', now') == once
  {
    EnqueueMeaning(endpoints, rows, eventId, messageId, payload, now);
    assert NewKeys(later, EnqueueRows(endpoints, rows, eventId, messageId, payload, now), eventId) == {};
  }

  // ---- The store ----

  datatype PendingDelivery = PendingDelivery(key: Key, url: string, secret: Bytes, payload: Bytes, attempts: nat)

  // What a claim returns of a row: its own payload and attempt, its endpoint's URL and secret.
  predicate IsPending(endpoints: map<int, Endpoint>, rows: map<Key, Delivery>, k: Key, item: PendingDelivery) {
    && item.key == k && k in rows && k.endpoint in endpoints
    && item.payload == rows[k].payload && item.attempts == rows[k].attempts
    && item.url == endpoints[k.endpoint].url && item.secret == endpoints[k.endpoint].secret
  }

  lemma {:induction false} FirstExists(rows: map<Key, Delivery>, keys: set<Key>)
    requires keys != {} && keys <= rows.Keys
    ensures exists k :: k in keys && forall x :: x in keys ==> rows[k].nextAttempt <= rows[x].nextAttempt
    decreases |keys|
  {
    var k :| k in keys;
    var rest := keys - {k};
    if rest == {} {
      assert forall x :: x in keys ==> x == k || x in rest;
    } else {
      FirstExists(rows, rest);
      var o :| o in rest && forall x :: x in rest ==> rows[o].nextAttempt <= rows[x].nextAttempt;
      var best := if rows[k].nextAttempt <= rows[o].nextAttempt then k else o;
      assert best in keys && forall x :: x in keys ==> x == k || x in rest;
    }
  }

  // fate says how the ith statement ends, and locked which rows others have locked at it.
  class Store {
    const fate: nat -> Write
    const locked: nat -> set<Key>
    var calls: nat
    var now: int
    var endpoints: map<int, Endpoint>
    var deliveries: map<Key, Delivery>

    constructor (fate: nat -> Write, locked: nat -> set<Key>, now: int, endpoints: map<int, Endpoint>)
      ensures this.fate == fate && this.locked == locked && this.now == now && this.endpoints == endpoints
      ensures Valid() && calls == 0 && deliveries == map[]
    {
      this.fate, this.locked, this.now, this.endpoints := fate, locked, now, endpoints;
      calls, deliveries := 0, map[];
    }

    // Every delivery belongs to an endpoint: the foreign key.
    ghost predicate Valid()
      reads this
    {
      forall k :: k in deliveries ==> k.endpoint in endpoints
    }

    method EnqueueDelivery(eventId: string, messageId: string, payload: Bytes) returns (ok: bool, ghost write: Write)
      requires Valid()
      modifies this`calls, this`deliveries
      ensures Valid()
      ensures calls == old(calls) + 1 && write == fate(old(calls))
      ensures ok <==> write.Written?
      ensures deliveries == if write.Refused? then old(deliveries)
                            else EnqueueRows(endpoints, old(deliveries), eventId, messageId, payload, now)
    {
      var end := fate(calls);
      calls := calls + 1;
      if !end.Refused? {
        deliveries := EnqueueRows(endpoints, deliveries, eventId, messageId, payload, now);
      }
      return end.Written?, end;
    }

    method SelectDue(limit: nat, busy: set<Key>) returns (picks: seq<Key>)
      ensures IsClaim(deliveries, now, limit, busy, picks)
    {
      picks := [];
      var due := set k | k in deliveries && k !in busy && Due(deliveries[k], now);
      var rest := due;
      while |picks| < limit && rest != {}
        invariant |picks| <= limit && Distinct(picks)
        invariant forall k :: k in due <==> k in picks || k in rest
        invariant forall k :: k in rest ==> k !in picks
        invariant forall p, k :: p in picks && k in rest ==> deliveries[p].nextAttempt <= deliveries[k].nextAttempt
        decreases rest
      {
        FirstExists(deliveries, rest);
        var next :| next in rest && forall x :: x in rest ==> deliveries[next].nextAttempt <= deliveries[x].nextAttempt;
        picks := picks + [next];
        rest := rest - {next};
      }
    }

    method ClaimDeliveries(limit: nat, lockFor: int)
      returns (out: Result<seq<PendingDelivery>, ()>, ghost picks: Option<seq<Key>>)
      requires Valid()
      modifies this`calls, this`deliveries
      ensures Valid()
      ensures calls == old(calls) + 1
      ensures picks.None? <==> fate(old(calls)).Refused?
      ensures out.Ok? <==> fate(old(calls)).Written?
      ensures picks.None? ==> deliveries == old(deliveries)
      ensures picks.Some? ==>
                && IsClaim(old(deliveries), now, limit, locked(old(calls)), picks.value)
                && deliveries == ClaimRows(old(deliveries), picks.value, now, lockFor)
                && (out.Ok? ==> |out.value| == |picks.value| && forall i :: 0 <= i < |out.value| ==>
                      IsPending(endpoints, deliveries, picks.value[i], out.value[i]))
    {
      var write, busy := fate(calls), locked(calls);
      calls := calls + 1;
      if write.Refused? {
        return Err(()), None;
      }
      var keys := SelectDue(limit, busy);
      deliveries := ClaimRows(deliveries, keys, now, lockFor);
      picks := Some(keys);
      if write.Unconfirmed? {
        return Err(()), picks;
      }
      var claimed: seq<PendingDelivery> := [];
      for i := 0 to |keys|
        invariant |claimed| == i
        invariant forall j :: 0 <= j < i ==> IsPending(endpoints, deliveries, keys[j], claimed[j])
      {
        assert keys[i] in keys;
        var d, e := deliveries[keys[i]], endpoints[keys[i].endpoint];
        claimed := claimed + [PendingDelivery(keys[i], e.url, e.secret, d.payload, d.attempts)];
      }
      out := Ok(claimed);
    }

    // MarkDeliverySucceeded, RescheduleDelivery and MarkDeliveryFailed.
    method MarkDelivery(k: Key, mark: Mark) returns (ok: bool, ghost write: Write)
      requires Valid()
      modifies this`calls, this`deliveries
      ensures Valid()
      ensures calls == old(calls) + 1
      ensures write == if CanMark(mark) then fate(old(calls)) else Refused
      ensures ok <==> write.Written?
      ensures deliveries == if write.Refused? then old(deliveries) else MarkRows(old(deliveries), k, mark)
    {
      var end := if CanMark(mark) then fate(calls) else Refused;
      calls := calls + 1;
      if !end.Refused? {
        deliveries := MarkRows(deliveries, k, mark);
      }
      return end.Written?, end;
    }
  }
}
