// internal/store/queue.go: the messages and message_events tables and the statements the
// delivery worker runs on them.
module MessageQueue {
  import opened Prelude
  import opened Utf8
  import opened Backoff
  import JsonString

  type Id = string

  datatype Status = Queued | Sending | Sent | Delivered | Deferred | Bounced | Failed | Cancelled

  // recipients is None for a row whose stored list cannot be decrypted.
  datatype Message = Message(status: Status, attempts: nat, scheduledAt: Option<int>, lockedUntil: Option<int>,
                             lastError: Option<Bytes>, createdAt: int, recipients: Option<seq<string>>)

  datatype Event = Event(messageId: Id, kind: string, detail: Bytes, at: int)

  datatype Claimed = Claimed(id: Id, recipients: seq<string>, attempts: nat)

  const SENT := "email.sent"
  const DEFERRED := "email.deferred"
  const FAILED := "email.failed"
  const MAX_ERROR := 500

  // ---- The statements, as functions of the rows ----

  predicate Due(m: Message, now: int) {
    && m.status in {Queued, Deferred}
    && (m.scheduledAt.None? || m.scheduledAt.value <= now)
    && (m.lockedUntil.None? || m.lockedUntil.value < now)
  }

  // The rows one claim takes: due, not row-locked by another statement (those are
  // skipped), at most limit, and oldest first. Equal ages may go either way.
  ghost predicate IsClaim(messages: map<Id, Message>, now: int, limit: nat, busy: set<Id>, picks: seq<Id>) {
    && Distinct(picks)
    && |picks| <= limit
    && (forall id :: id in picks ==> id in messages && id !in busy && Due(messages[id], now))
    && (forall id :: id in messages && id !in busy && id !in picks && Due(messages[id], now) ==>
          |picks| == limit && forall p :: p in picks ==> messages[p].createdAt <= messages[id].createdAt)
  }

  // Whether the recipients of every row taken can be decrypted.
  predicate AllReadable(messages: map<Id, Message>, picks: seq<Id>) {
    forall id :: id in picks ==> id in messages && messages[id].recipients.Some?
  }

  function ClaimRow(m: Message, now: int, lockFor: int): Message {
    m.(status := Sending, attempts := m.attempts + 1, lockedUntil := Some(now + lockFor))
  }

  function ClaimRows(messages: map<Id, Message>, picks: seq<Id>, now: int, lockFor: int): map<Id, Message> {
    map id | id in messages :: if id in picks then ClaimRow(messages[id], now, lockFor) else messages[id]
  }

  // A claim starts the next attempt of each row it takes and touches no other.
  lemma ClaimMeaning(messages: map<Id, Message>, picks: seq<Id>, now: int, lockFor: int)
    ensures var after := ClaimRows(messages, picks, now, lockFor);
            && after.Keys == messages.Keys
            && (forall id :: id in messages && id !in picks ==> after[id] == messages[id])
            && (forall id :: id in messages && id in picks ==>
                  var m := messages[id];
                  after[id] == Message(Sending, m.attempts + 1, m.scheduledAt, Some(now + lockFor), m.lastError, m.createdAt, m.recipients))
  {
  }

  // What a worker asks the store to write about one message.
  datatype Mark = MarkSent | MarkDeferred(retryAt: int, reason: Bytes) | MarkFailed(reason: Bytes)

  // Whether last_error takes the text: the cut at 500 bytes may leave half a character, which
  // the database refuses.
  predicate CanMark(mark: Mark) {
    mark.MarkSent? || Storable(Truncate(mark.reason, MAX_ERROR))
  }

  function MarkRow(m: Message, mark: Mark): Message {
    match mark
    case MarkSent => m.(status := Status.Sent, lockedUntil := None, lastError := None)
    case MarkDeferred(retryAt, reason) =>
      m.(status := Deferred, scheduledAt := Some(retryAt), lockedUntil := None, lastError := Some(Truncate(reason, MAX_ERROR)))
    case MarkFailed(reason) =>
      m.(status := Failed, lockedUntil := None, lastError := Some(Truncate(reason, MAX_ERROR)))
  }

  // The row is named by id alone: whatever its status is, it is overwritten.
  function MarkRows(messages: map<Id, Message>, id: Id, mark: Mark): map<Id, Message> {
    if id in messages then messages[id := MarkRow(messages[id], mark)] else messages
  }

  function KindOf(mark: Mark): string {
    match mark
    case MarkSent => SENT
    case MarkDeferred(_, _) => DEFERRED
    case MarkFailed(_) => FAILED
  }

  function DetailOf(mark: Mark): Bytes {
    if mark.MarkSent? then [] else mark.reason
  }

  function SentAfter(events: seq<Event>, t: int): nat {
    if events == [] then 0
    else SentAfter(events[..|events| - 1], t) +
         (if events[|events| - 1].kind == SENT && events[|events| - 1].at > t then 1 else 0)
  }

  // ---- The store ----

  lemma {:induction false} OldestExists(messages: map<Id, Message>, ids: set<Id>)
    requires ids != {} && ids <= messages.Keys
    ensures exists id :: id in ids && forall x :: x in ids ==> messages[id].createdAt <= messages[x].createdAt
    decreases |ids|
  {
    var id :| id in ids;
    var rest := ids - {id};
    if rest == {} {
      assert forall x :: x in ids ==> x == id || x in rest;
    } else {
      OldestExists(messages, rest);
      var o :| o in rest && forall x :: x in rest ==> messages[o].createdAt <= messages[x].createdAt;
      var best := if messages[id].createdAt <= messages[o].createdAt then id else o;
      assert best in ids && forall x :: x in ids ==> x == id || x in rest;
    }
  }

  // What the database makes of each statement is not the store's choice: fate says how the
  // ith one ends, and locked which rows others have locked at it.
  class Store {
    const fate: nat -> Write
    const locked: nat -> set<Id>
    var calls: nat
    var now: int
    var messages: map<Id, Message>
    var events: seq<Event>

    constructor (fate: nat -> Write, locked: nat -> set<Id>, now: int)
      ensures this.fate == fate && this.locked == locked && this.now == now
      ensures calls == 0 && messages == map[] && events == []
    {
      this.fate, this.locked, this.now := fate, locked, now;
      calls, messages, events := 0, map[], [];
    }

    // The subselect of the claim statement.
    method SelectDue(limit: nat, busy: set<Id>) returns (picks: seq<Id>)
      ensures IsClaim(messages, now, limit, busy, picks)
    {
      picks := [];
      var due := set id | id in messages && id !in busy && Due(messages[id], now);
      var rest := due;
      while |picks| < limit && rest != {}
        invariant |picks| <= limit && Distinct(picks)
        invariant forall id :: id in due <==> id in picks || id in rest
        invariant forall id :: id in rest ==> id !in picks
        invariant forall p, id :: p in picks && id in rest ==> messages[p].createdAt <= messages[id].createdAt
        decreases rest
      {
        OldestExists(messages, rest);
        var next :| next in rest && forall x :: x in rest ==> messages[next].createdAt <= messages[x].createdAt;
        picks := picks + [next];
        rest := rest - {next};
      }
    }

    // An error can come before the update, or after it: the rows are then claimed by
    // nobody. Decrypting one row's recipients is part of reading the result.
    method ClaimMessages(limit: nat, lockFor: int) returns (out: Result<seq<Claimed>, ()>, ghost picks: Option<seq<Id>>)
      modifies this`calls, this`messages
      ensures calls == old(calls) + 1
      ensures picks.None? <==> fate(old(calls)).Refused?
      ensures picks.None? ==> out.Err? && messages == old(messages)
      ensures picks.Some? ==>
                && IsClaim(old(messages), now, limit, locked(old(calls)), picks.value)
                && messages == ClaimRows(old(messages), picks.value, now, lockFor)
                && (out.Ok? <==> fate(old(calls)).Written? && AllReadable(old(messages), picks.value))
                && (out.Ok? ==> |out.value| == |picks.value| && forall i :: 0 <= i < |out.value| ==>
                      && out.value[i].id == picks.value[i] && picks.value[i] in messages
                      && out.value[i].attempts == messages[picks.value[i]].attempts
                      && messages[picks.value[i]].recipients == Some(out.value[i].recipients))
    {
      var write, busy := fate(calls), locked(calls);
      calls := calls + 1;
      if write.Refused? {
        return Err(()), None;
      }
      var ids := SelectDue(limit, busy);
      ghost var before := messages;
      messages := ClaimRows(messages, ids, now, lockFor);
      picks := Some(ids);
      if write.Unconfirmed? {
        return Err(()), picks;
      }
      var claimed: seq<Claimed> := [];
      for i := 0 to |ids|
        invariant |claimed| == i
        invariant forall j :: 0 <= j < i ==>
            && claimed[j].id == ids[j] && ids[j] in messages
            && claimed[j].attempts == messages[ids[j]].attempts
            && messages[ids[j]].recipients == Some(claimed[j].recipients)
      {
        assert ids[i] in ids;
        var m := messages[ids[i]];
        if m.recipients.None? {
          assert before[ids[i]].recipients == m.recipients;
          return Err(()), picks;
        }
        claimed := claimed + [Claimed(ids[i], m.recipients.value, m.attempts)];
      }
      forall id | id in ids
        ensures before[id].recipients.Some?
      {
        var i :| 0 <= i < |ids| && ids[i] == id;
        assert before[id].recipients == messages[id].recipients;
      }
      out := Ok(claimed);
    }

    // The history row. Its foreign key refuses an event about no message.
    method RecordEvent(id: Id, kind: string, detail: Bytes) returns (ok: bool, ghost write: Write)
      modifies this`calls, this`events
      ensures calls == old(calls) + 1
      ensures write == if id in messages then fate(old(calls)) else Refused
      ensures ok <==> write.Written?
      ensures events == if write.Refused? then old(events)
                        else old(events) + [Event(id, kind, JsonString.EventDetail(detail), now)]
    {
      var payload := Encode("{}");
      if detail != [] {
        payload := JsonString.MustJsonString(Truncate(detail, JsonString.MAX_DETAIL));
      }
      var end := if id in messages then fate(calls) else Refused;
      calls := calls + 1;
      if !end.Refused? {
        events := events + [Event(id, kind, payload, now)];
      }
      return end.Written?, end;
    }

    // transition and MarkDeferred: one UPDATE, then one INSERT if the UPDATE went well.
    method MarkMessage(id: Id, mark: Mark) returns (ok: bool, ghost update: Write, ghost insert: Write)
      modifies this`calls, this`messages, this`events
      ensures calls == old(calls) + if update.Written? then 2 else 1
      ensures update == if CanMark(mark) then fate(old(calls)) else Refused
      ensures insert == if update.Written? && id in messages then fate(old(calls) + 1) else Refused
      ensures messages == if update.Refused? then old(messages) else MarkRows(old(messages), id, mark)
      ensures events == if insert.Refused? then old(events)
                        else old(events) + [Event(id, KindOf(mark), JsonString.EventDetail(DetailOf(mark)), now)]
      ensures ok <==> update.Written? && insert.Written?
    {
      var end := if CanMark(mark) then fate(calls) else Refused;
      calls := calls + 1;
      update, insert := end, Refused;
      if !end.Refused? {
        messages := MarkRows(messages, id, mark);
      }
      if !end.Written? {
        return false, update, insert;
      }
      ok, insert := RecordEvent(id, KindOf(mark), DetailOf(mark));
    }

    method SentInLastHour() returns (n: Result<nat, ()>)
      modifies this`calls
      ensures calls == old(calls) + 1
      ensures n.Ok? <==> fate(old(calls)).Written?
      ensures n.Ok? ==> n.value == SentAfter(events, now - HOUR)
    {
      var end := fate(calls);
      calls := calls + 1;
      if !end.Written? {
        return Err(());
      }
      var count := 0;
      for i := 0 to |events|
        invariant count == SentAfter(events[..i], now - HOUR)
      {
        assert events[..i + 1][..i] == events[..i];
        if events[i].kind == SENT && events[i].at > now - HOUR {
          count := count + 1;
        }
      }
      assert events[..|events|] == events;
      n := Ok(count);
    }
  }
}
