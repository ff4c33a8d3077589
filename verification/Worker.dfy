// internal/worker/worker.go: the worker's loop body on the database, statement by statement.
//
// Each method returns the steps of the delivery protocol it took and is proved to be a run
// of it in the world its stores and its engine make: whatever is proved of every run of that
// machine is proved of what the worker does, and no step of it fails but by that world.
module Worker {
  import opened Prelude
  import opened Utf8
  import opened MessageQueue
  import opened DeliveryProtocol
  import opened DeliveryWorld
  import opened Backoff
  import JsonString
  import Bounce
  import DeliveryEvents
  import Suppressions
  import WebhookQueue

  datatype Platform = Platform(lower: string -> string, payload: (string, string, string, Bytes, int) -> Option<Bytes>)

  // Nothing is claimed or tested again on the way.
  predicate Inner(trace: seq<Step>) {
    forall i :: 0 <= i < |trace| ==> !trace[i].Check? && !trace[i].GiveUp? && !trace[i].Claim?
  }

  ghost predicate SameRecipients(was: map<Id, Message>, messages: map<Id, Message>) {
    forall id :: id in was ==> id in messages && messages[id].recipients == was[id].recipients
  }

  // The picks were handed over, each once, in order.
  ghost predicate HandedOver(was: seq<Claimed>, picks: seq<Id>, handed: seq<Claimed>) {
    && |handed| == |was| + |picks| && was <= handed
    && forall i :: 0 <= i < |picks| ==> handed[|was| + i].id == picks[i]
  }

  lemma InnerNone()
    ensures Inner([])
  {
  }

  lemma InnerHand()
    ensures forall d, reply, reason :: Inner([Pass(d), Answer(0, reply, reason)])
  {
  }

  lemma InnerMore(trace: seq<Step>, more: seq<Step>)
    requires Inner(trace) && Inner(more)
    ensures Inner(trace + more)
  {
  }

  // What is left to do before message i of a claim.
  function Remaining(jobs: seq<Job>, i: nat): Phase
    requires i <= |jobs|
  {
    if i < |jobs| then Working(jobs[i..], Ready) else Idle
  }

  lemma RemainingStep(jobs: seq<Job>, i: nat)
    requires i < |jobs|
    ensures Remaining(jobs, i) == Working(jobs[i..], Ready) && Remaining(jobs, i + 1) == Finished(jobs[i..])
  {
    assert jobs[i..][1..] == jobs[i + 1..];
  }

  lemma RemainingAll(jobs: seq<Job>)
    ensures Remaining(jobs, 0) == if jobs == [] then Idle else Working(jobs, Ready)
    ensures Remaining(jobs, |jobs|) == Idle
  {
    assert jobs[0..] == jobs;
  }

  predicate InQueue(messages: map<Id, Message>, msgs: seq<Claimed>) {
    forall msg :: msg in msgs ==> msg.id in messages && messages[msg.id].recipients == Some(msg.recipients)
  }

  lemma OneInQueue(messages: map<Id, Message>, msgs: seq<Claimed>, i: nat)
    requires InQueue(messages, msgs) && i < |msgs|
    ensures msgs[i].id in messages && messages[msgs[i].id].recipients == Some(msgs[i].recipients)
  {
    assert msgs[i] in msgs;
  }

  lemma StaysInQueue(was: map<Id, Message>, messages: map<Id, Message>, msgs: seq<Claimed>)
    requires InQueue(was, msgs) && SameRecipients(was, messages)
    ensures InQueue(messages, msgs)
  {
  }

  lemma ReturnedInQueue(messages: map<Id, Message>, picks: seq<Id>, msgs: seq<Claimed>, was: seq<Claimed>)
    requires |msgs| == |picks|
    requires forall i :: 0 <= i < |msgs| ==>
               picks[i] in messages && msgs[i].id == picks[i] && messages[picks[i]].recipients == Some(msgs[i].recipients)
    ensures InQueue(messages, msgs)
    ensures HandedOver(was, picks, was + msgs)
  {
  }

  // ---- The pieces of a run ----

  lemma HandSteps(world: World, s: State, r: Rest, msg: Claimed, d: nat, reply: Reply, reason: Bytes)
    requires HasMessage(s) && s.workers == [Working(s.workers[0].batch, Ready)] && msg == InHand(s)
    requires Response(reply, reason) == world.engine(|r.handed|, msg)
    ensures var t, step := s.(now := s.now + d), Answer(0, reply, reason);
            && Next(s, Pass(d), world.ceiling) == t && Tally(world, s, r, Pass(d)) == r
            && Enabled(t, step, world.ceiling) && Follows(world, t, r, step)
            && Tally(world, t, r, step) == Handed(world, r, msg, reply, reason)
            && Next(t, step, world.ceiling) ==
               t.(workers := [Working(s.workers[0].batch, Answered(reply, reason, t.now))],
                  history := Judged(s.history, s.workers[0].batch[0], reply))
  {
    hide Judged, Handed;
  }

  // One handoff: time passes, and the engine answers.
  lemma HandGoes(world: World, s: State, r: Rest, msg: Claimed, d: nat, reply: Reply, reason: Bytes)
    requires HasMessage(s) && s.workers == [Working(s.workers[0].batch, Ready)] && msg == InHand(s)
    requires Response(reply, reason) == world.engine(|r.handed|, msg)
    ensures Goes(world, s, r, [Pass(d), Answer(0, reply, reason)],
                 s.(now := s.now + d, workers := [Working(s.workers[0].batch, Answered(reply, reason, s.now + d))],
                    history := Judged(s.history, s.workers[0].batch[0], reply)),
                 Handed(world, r, msg, reply, reason))
  {
    HandSteps(world, s, r, msg, d, reply, reason);
    hide Goes, Handed, Judged, Next, Tally;
    GoesOne(world, s, r, Pass(d));
    GoesMore(world, s, r, [Pass(d)], s.(now := s.now + d), r, Answer(0, reply, reason));
    assert [Pass(d)] + [Answer(0, reply, reason)] == [Pass(d), Answer(0, reply, reason)];
  }

  // The test of the ceiling and the claim.
  lemma ClaimGoes(world: World, s: State, r: Rest, picks: Option<seq<Id>>, received: bool) returns (step: Step, t: State)
    requires s.workers == [Idle] && BelowCeiling(s, world.ceiling) && (world.ceiling > 0 ==> world.fate(r.calls).Written?)
    requires var end := world.fate(if world.ceiling > 0 then r.calls + 1 else r.calls);
             && (picks.None? <==> end.Refused?) && (picks.None? ==> !received)
             && (picks.Some? ==>
                   && IsClaim(s.messages, s.now, BATCH, world.locked(if world.ceiling > 0 then r.calls + 1 else r.calls), picks.value)
                   && (received <==> end.Written? && AllReadable(s.messages, picks.value)))
    ensures Goes(world, s, r, [Check(0), step], t, r.(calls := if world.ceiling > 0 then r.calls + 2 else r.calls + 1))
    ensures picks.None? ==> step == GiveUp(0) && t == s
    ensures picks.Some? ==>
              && step.Claim? && step.picks == picks.value && (step.received <==> received)
              && var messages := ClaimRows(s.messages, picks.value, s.now, LOCK);
                 && (forall id :: id in picks.value ==> id in messages)
                 && t == s.(messages := messages, history := GrantedTo(s.history, picks.value, 0, s.now),
                            workers := [if received && picks.value != [] then Working(JobsOf(messages, picks.value), Ready) else Idle])
  {
    hide Goes, ClaimRow, GrantedTo, SentAfter, Due, AllReadable;
    var checked, q := s.(workers := [Checked]), if world.ceiling > 0 then r.(calls := r.calls + 1) else r;
    GoesOne(world, s, r, Check(0));
    assert Next(s, Check(0), world.ceiling) == checked && Tally(world, s, r, Check(0)) == q;
    step := if picks.None? then GiveUp(0) else Claim(0, picks.value, world.locked(q.calls), received);
    t := Next(checked, step, world.ceiling);
    GoesMore(world, s, r, [Check(0)], checked, q, step);
    assert [Check(0)] + [step] == [Check(0), step];
  }

  // The webhooks of an event just recorded.
  lemma PublishGoes(world: World, s: State, r: Rest, trace: seq<Step>, t: State, q: Rest, batch: seq<Job>, note: Note,
                    detail: Bytes, done: bool)
    requires Goes(world, s, r, trace, t, q) && Inner(trace)
    requires batch != [] && t.workers == [Working(batch, Recorded(note.kind, detail))]
    requires note == Note(batch[0].id, note.kind, batch[0].attempts)
    requires done <==> PayloadOf(world, note, detail, t.now).Some? && !world.posts(q.posted).Refused?
    ensures Goes(world, s, r, trace + [DeliveryProtocol.Publish(0, done)],
                 t.(workers := [Finished(batch)], published := if done then t.published + [note] else t.published),
                 Posted(world, q, note, detail, t.now))
    ensures Inner(trace + [DeliveryProtocol.Publish(0, done)])
  {
    hide Goes, Posted, PayloadOf;
    var step := DeliveryProtocol.Publish(0, done);
    GoesMore(world, s, r, trace, t, q, step);
    assert Tally(world, t, q, step) == Posted(world, q, note, detail, t.now);
    assert Next(t, step, world.ceiling) ==
           t.(workers := [Finished(batch)], published := if done then t.published + [note] else t.published);
  }

  // One MarkMessage: the update and, if it went well, the event.
  lemma MarkGoes(world: World, s: State, r: Rest, batch: seq<Job>, reply: Reply, answer: Bytes, at: int, mark: Mark,
                 update: Write, insert: Write) returns (trace: seq<Step>, t: State, q: Rest)
    requires batch != [] && s.workers == [Working(batch, Answered(reply, answer, at))] && at <= s.now
    requires mark == MarkFor(reply, answer, batch[0].attempts, s.now)
    requires update == if CanMark(mark) then world.fate(r.calls) else Refused
    requires insert == if update.Written? && batch[0].id in s.messages then world.fate(r.calls + 1) else Refused
    ensures Goes(world, s, r, trace, t, q) && Inner(trace)
    ensures q == r.(calls := r.calls + if update.Written? then 2 else 1)
    ensures t.workers == [if update.Written? && insert.Written? then Working(batch, Recorded(KindOf(mark), DetailOf(mark)))
                          else Finished(batch)]
    ensures t.messages == if update.Refused? then s.messages else MarkRows(s.messages, batch[0].id, mark)
    ensures var kept := !update.Written? || insert.Refused?;
            && t.events == (if kept then s.events
                            else s.events + [Event(batch[0].id, KindOf(mark), JsonString.EventDetail(DetailOf(mark)), s.now)])
            && t.recorded == (if kept then s.recorded else s.recorded + [Note(batch[0].id, KindOf(mark), batch[0].attempts)])
    ensures t.now == s.now && t.history == s.history && t.published == s.published
  {
    hide Encode, Truncate, JsonString.EventDetail, MarkFor, MarkRows, KindOf, DetailOf, Goes, CanMark;
    GoesOne(world, s, r, Step.Mark(0, s.now, update));
    trace, t, q := [Step.Mark(0, s.now, update)], Next(s, Step.Mark(0, s.now, update), world.ceiling), r.(calls := r.calls + 1);
    KeysStay(s.messages, batch[0].id, mark);
    if update.Written? {
      GoesMore(world, s, r, trace, t, q, Record(0, insert));
      trace, t, q := trace + [Record(0, insert)], Next(t, Record(0, insert), world.ceiling), q.(calls := q.calls + 1);
    }
  }

  lemma KeysStay(messages: map<Id, Message>, id: Id, mark: Mark)
    ensures MarkRows(messages, id, mark).Keys == messages.Keys
    ensures SameRecipients(messages, MarkRows(messages, id, mark))
  {
    hide Truncate;
  }

  // A round that is not held back: it claims, exactly once. If the claim fails it ends with
  // the error; if not it hands over every message claimed, in order, and returns their number.
  ghost predicate Round(world: World, s: State, r: Rest, trace: seq<Step>, t: State, q: Rest, n: Result<nat, ()>) {
    && Goes(world, s, r, trace, t, q)
    && |trace| >= 2 && trace[0] == Check(0) && Inner(trace[2..])
    && match trace[1]
       case GiveUp(_) => n.Err? && |trace| == 2 && q.handed == r.handed
       case Claim(_, picks, _, received) =>
         if received then n == Ok(|picks|) && HandedOver(r.handed, picks, q.handed)
         else n.Err? && |trace| == 2 && q.handed == r.handed
       case _ => false
  }

  lemma RoundFails(world: World, s: State, r: Rest, step: Step, t: State, q: Rest)
    requires Goes(world, s, r, [Check(0), step], t, q) && q.handed == r.handed
    requires step.GiveUp? || (step.Claim? && !step.received)
    ensures Round(world, s, r, [Check(0), step], t, q, Err(()))
  {
    hide Goes;
    assert [Check(0), step][2..] == [];
  }

  lemma RoundOn(world: World, s: State, r: Rest, step: Step, mid: State, b: Rest, more: seq<Step>, t: State, q: Rest)
    requires Goes(world, s, r, [Check(0), step], mid, b) && Goes(world, mid, b, more, t, q) && Inner(more)
    requires step.Claim? && step.received && HandedOver(r.handed, step.picks, q.handed)
    ensures Round(world, s, r, [Check(0), step] + more, t, q, Ok(|step.picks|))
  {
    hide Goes, HandedOver;
    GoesOn(world, s, r, [Check(0), step], mid, b, more, t, q);
    assert ([Check(0), step] + more)[2..] == more;
  }

  // ---- The program ----

  class Worker {
    const p: Platform
    const engine: (nat, Claimed) -> Response
    const queue: MessageQueue.Store
    const hooks: WebhookQueue.Store
    const list: Suppressions.Store
    const maxPerHour: int
    var handed: seq<Claimed>
    ghost var history: map<Id, History>
    ghost var recorded: seq<Note>
    ghost var published: seq<Note>

    constructor (p: Platform, engine: (nat, Claimed) -> Response, queue: MessageQueue.Store, hooks: WebhookQueue.Store,
                 list: Suppressions.Store, maxPerHour: int)
      ensures this.p == p && this.engine == engine && this.queue == queue && this.hooks == hooks && this.list == list
      ensures this.maxPerHour == maxPerHour && handed == []
    {
      this.p, this.engine, this.queue, this.hooks, this.list, this.maxPerHour := p, engine, queue, hooks, list, maxPerHour;
      handed := [];
    }

    ghost predicate Valid()
      reads this, queue, hooks
    {
      hooks.Valid() && hooks.now == queue.now
    }

    // The protocol's state, with this worker alone.
    ghost function Snapshot(phase: Phase): (s: State)
      reads this, queue
    {
      State(queue.now, queue.messages, queue.events, [phase], history, recorded, published)
    }

    ghost function Facts(): World
      reads this, hooks
    {
      World(maxPerHour, queue.fate, queue.locked, engine, hooks.fate, hooks.endpoints, p.payload, list.fate, list.p, p.lower)
    }

    ghost function Books(): Rest
      reads this, queue, hooks, list
    {
      Rest(queue.calls, hooks.calls, list.calls, handed, hooks.deliveries, list.rows)
    }

    method Elapse() returns (ghost d: nat)
      requires Valid()
      modifies queue`now, hooks`now
      ensures Valid() && queue.now == old(queue.now) + d
    {
      var passed: nat := *;
      queue.now := queue.now + passed;
      hooks.now := queue.now;
      d := passed;
    }

    // The event goes to every active endpoint, or to none.
    method Publish(ghost note: Note, id: Id, kind: string, reason: Bytes, attempt: nat) returns (ghost done: bool)
      requires Valid() && note == Note(id, kind, attempt)
      modifies hooks`calls, hooks`deliveries
      ensures Valid()
      ensures done <==> PayloadOf(Facts(), note, reason, hooks.now).Some? && !hooks.fate(old(hooks.calls)).Refused?
      ensures Books() == Posted(Facts(), old(Books()), note, reason, hooks.now)
    {
      var eventId := DeliveryEvents.EventId(Note(id, kind, attempt));
      var payload := p.payload(eventId, kind, id, reason, hooks.now);
      if payload.None? {
        return false;
      }
      var ok;
      ghost var write;
      ok, write := hooks.EnqueueDelivery(eventId, id, payload.value);
      done := !write.Refused?;
    }

    // The mark, its event and its webhooks: each exactly if the one before went well.
    method Conclude(mark: Mark, ghost batch: seq<Job>, ghost reply: Reply, ghost answer: Bytes, ghost at: int,
                    id: Id, attempts: nat)
      returns (ghost trace: seq<Step>)
      requires Valid() && batch != [] && batch[0] == Job(id, attempts) && at <= queue.now
      requires mark == MarkFor(reply, answer, attempts, queue.now)
      modifies this`recorded, this`published, queue`calls, queue`messages, queue`events, hooks`calls, hooks`deliveries
      ensures Valid()
      ensures Goes(Facts(), old(Snapshot(Working(batch, Answered(reply, answer, at)))), old(Books()), trace,
                   Snapshot(Finished(batch)), Books())
      ensures Inner(trace) && SameRecipients(old(queue.messages), queue.messages)
    {
      hide Delay, Encode, Truncate, JsonString.EventDetail, MarkFor, MarkRows, KindOf, DetailOf, Goes, CanMark, Posted,
           PayloadOf, WebhookQueue.Store.Valid, Inner;
      ghost var start, r := Snapshot(Working(batch, Answered(reply, answer, at))), Books();
      var ok;
      ghost var update;
      ghost var insert;
      ok, update, insert := queue.MarkMessage(id, mark);
      ghost var note, after, q := Note(id, KindOf(mark), attempts), start, r;
      KeysStay(start.messages, id, mark);
      trace, after, q := MarkGoes(Facts(), start, r, batch, reply, answer, at, mark, update, insert);
      recorded := if !update.Written? || insert.Refused? then recorded else recorded + [note];
      if !ok {
        assert Snapshot(Finished(batch)) == after && Books() == q;
        return;
      }
      ghost var done;
      done := Publish(note, id, KindOf(mark), DetailOf(mark), attempts);
      PublishGoes(Facts(), start, r, trace, after, q, batch, note, DetailOf(mark), done);
      trace := trace + [DeliveryProtocol.Publish(0, done)];
      published := if done then published + [note] else published;
    }

    // If the destination condemned the address, each recipient is put on the list; a statement
    // that fails stops none of the others.
    method SuppressIfAddressIsBad(msg: Claimed, reason: Bytes)
      modifies list`calls, list`rows
      ensures if Condemns(p.lower, reason) then
                && list.calls == old(list.calls) + |msg.recipients|
                && list.rows == Barred(Facts(), old(list.calls), old(list.rows), msg.recipients, reason, msg.id)
              else list.calls == old(list.calls) && list.rows == old(list.rows)
    {
      hide Bounce.GroundOf, Bounce.KindOf, Bounce.StatusText, Bounce.Explanation, Chars, Suppressions.HashOf, Suppressions.Apply;
      var verdict := Bounce.Classify(p.lower, Chars(reason));
      if !Bounce.Suppresses(verdict.kind) {
        return;
      }
      for i := 0 to |msg.recipients|
        invariant list.calls == old(list.calls) + i
        invariant list.rows == Barred(Facts(), old(list.calls), old(list.rows), msg.recipients[..i], reason, msg.id)
      {
        assert msg.recipients[..i + 1][..i] == msg.recipients[..i];
        assert Suppressions.KnownReason(SuppressionReason(verdict.kind));
        var ok;
        ghost var write;
        ok, write := list.Suppress(msg.recipients[i], SuppressionReason(verdict.kind), verdict.reason, msg.id);
      }
      assert msg.recipients[..|msg.recipients|] == msg.recipients;
    }

    method Fail(msg: Claimed, reason: Bytes, ghost batch: seq<Job>, ghost reply: Reply, ghost answer: Bytes, ghost at: int)
      returns (ghost trace: seq<Step>)
      requires Valid() && batch != [] && batch[0] == Job(msg.id, msg.attempts) && at <= queue.now
      requires MarkFailed(reason) == MarkFor(reply, answer, msg.attempts, queue.now)
      modifies this`recorded, this`published, queue`calls, queue`messages, queue`events, hooks`calls, hooks`deliveries
      ensures Valid()
      ensures Goes(Facts(), old(Snapshot(Working(batch, Answered(reply, answer, at)))), old(Books()), trace,
                   Snapshot(Finished(batch)), Books())
      ensures Inner(trace) && SameRecipients(old(queue.messages), queue.messages)
    {
      trace := Conclude(MarkFailed(reason), batch, reply, answer, at, msg.id, msg.attempts);
    }

    // Signing and the engine: what comes back, after some time.
    method Hand(msg: Claimed, ghost batch: seq<Job>) returns (reply: Reply, reason: Bytes, ghost d: nat)
      requires Valid() && batch != []
      modifies this`history, this`handed, queue`now, hooks`now
      ensures Valid() && queue.now == old(queue.now) + d
      ensures Response(reply, reason) == engine(|old(handed)|, msg) && handed == old(handed) + [msg]
      ensures history == Judged(old(history), batch[0], reply)
    {
      d := Elapse();
      var response := engine(|handed|, msg);
      handed := handed + [msg];
      reply, reason := response.reply, response.reason;
      history := Judged(history, batch[0], reply);
    }

    method Deliver(msg: Claimed, ghost batch: seq<Job>) returns (ghost trace: seq<Step>)
      requires Valid() && batch != [] && batch[0] == Job(msg.id, msg.attempts)
      requires msg.id in queue.messages && queue.messages[msg.id].recipients == Some(msg.recipients)
      modifies this`history, this`recorded, this`published, this`handed, queue`now, queue`calls, queue`messages, queue`events,
               hooks`now, hooks`calls, hooks`deliveries, list`calls, list`rows
      ensures Valid() && Facts() == old(Facts())
      ensures Goes(Facts(), old(Snapshot(Working(batch, Ready))), old(Books()), trace, Snapshot(Finished(batch)), Books())
      ensures handed == old(handed) + [msg]
      ensures Inner(trace) && SameRecipients(old(queue.messages), queue.messages)
    {
      hide Goes, Condemns, Encode, Delay, WebhookQueue.Store.Valid, Barred, Judged, SameRecipients, Finished, Inner;
      InnerHand();
      ghost var world, start, r := Facts(), Snapshot(Working(batch, Ready)), Books();
      assert HasMessage(start) && InHand(start) == msg;
      var reply, reason;
      ghost var d;
      ghost var more;
      reply, reason, d := Hand(msg, batch);
      ghost var at := queue.now;
      HandGoes(world, start, r, msg, d, reply, reason);
      ghost var mid, q := Snapshot(Working(batch, Answered(reply, reason, at))), Books();
      match reply {
        case Unsigned =>
          more := Fail(msg, UNSIGNED + reason, batch, reply, reason, at);
        case Sent =>
          more := Conclude(MarkSent, batch, reply, reason, at, msg.id, msg.attempts);
        case Temporary =>
          if msg.attempts >= MAX_ATTEMPTS {
            more := Fail(msg, GAVE_UP + reason, batch, reply, reason, at);
          } else {
            var retryAt := queue.now + Delay(msg.attempts);
            more := Conclude(MarkDeferred(retryAt, reason), batch, reply, reason, at, msg.id, msg.attempts);
          }
        case Permanent =>
          SuppressIfAddressIsBad(msg, reason);
          q := Books();
          more := Fail(msg, reason, batch, reply, reason, at);
      }
      assert Facts() == world && q == Handed(world, r, msg, reply, reason);
      GoesOn(world, start, r, [Pass(d), Answer(0, reply, reason)], mid, q, more, Snapshot(Finished(batch)), Books());
      InnerMore([Pass(d), Answer(0, reply, reason)], more);
      trace := [Pass(d), Answer(0, reply, reason)] + more;
    }

    // The loop over what was claimed: every message is delivered, in order.
    method DeliverAll(claimed: seq<Claimed>, ghost jobs: seq<Job>) returns (ghost trace: seq<Step>)
      requires Valid() && InQueue(queue.messages, claimed) && |jobs| == |claimed|
      requires forall i :: 0 <= i < |jobs| ==> jobs[i] == Job(claimed[i].id, claimed[i].attempts)
      modifies this`history, this`recorded, this`published, this`handed, queue`now, queue`calls, queue`messages, queue`events,
               hooks`now, hooks`calls, hooks`deliveries, list`calls, list`rows
      ensures Valid() && Facts() == old(Facts())
      ensures Goes(Facts(), old(Snapshot(Remaining(jobs, 0))), old(Books()), trace, Snapshot(Idle), Books()) && Inner(trace)
      ensures handed == old(handed) + claimed
    {
      hide *;
      ghost var world, start, r := Facts(), Snapshot(Remaining(jobs, 0)), Books();
      trace := [];
      GoesNone(world, start, r);
      InnerNone();
      for i := 0 to |claimed|
        invariant Valid() && Facts() == world
        invariant Goes(world, start, r, trace, Snapshot(Remaining(jobs, i)), Books()) && Inner(trace)
        invariant handed == old(handed) + claimed[..i]
        invariant InQueue(queue.messages, claimed)
      {
        ghost var before, b, was := Snapshot(Remaining(jobs, i)), Books(), queue.messages;
        ghost var more;
        RemainingStep(jobs, i);
        OneInQueue(was, claimed, i);
        more := Deliver(claimed[i], jobs[i..]);
        StaysInQueue(was, queue.messages, claimed);
        GoesOn(world, start, r, trace, before, b, more, Snapshot(Remaining(jobs, i + 1)), Books());
        InnerMore(trace, more);
        trace := trace + more;
      }
      RemainingAll(jobs);
      assert claimed[..|claimed|] == claimed;
    }

    // One round of the loop. It does nothing exactly if the hour's count fails or is at the
    // ceiling.
    method Tick() returns (n: Result<nat, ()>, ghost trace: seq<Step>)
      requires Valid()
      modifies this`history, this`recorded, this`published, this`handed, queue`now, queue`calls, queue`messages, queue`events,
               hooks`now, hooks`calls, hooks`deliveries, list`calls, list`rows
      ensures Valid()
      ensures trace == [] <==>
                maxPerHour > 0 && (!queue.fate(old(queue.calls)).Written? || SentAfter(old(queue.events), old(queue.now) - HOUR) >= maxPerHour)
      ensures trace == [] ==>
                && Snapshot(Idle) == old(Snapshot(Idle)) && Books() == old(Books()).(calls := old(queue.calls) + 1)
                && n == if queue.fate(old(queue.calls)).Written? then Ok(0) else Err(())
      ensures trace != [] ==> Round(Facts(), old(Snapshot(Idle)), old(Books()), trace, Snapshot(Idle), Books(), n)
    {
      hide SentAfter, IsClaim, GrantedTo, Goes, WebhookQueue.Store.Valid, HandedOver, ClaimRows, AllReadable, InQueue, Remaining,
           Round, Inner;
      ghost var start, r := Snapshot(Idle), Books();
      ghost var held := maxPerHour > 0 && (!queue.fate(queue.calls).Written? || SentAfter(queue.events, queue.now - HOUR) >= maxPerHour);
      trace := [];
      if maxPerHour > 0 {
        var sent := queue.SentInLastHour();
        if sent.Err? {
          return Err(()), trace;
        }
        if sent.value >= maxPerHour {
          return Ok(0), trace;
        }
      }
      assert !held && BelowCeiling(start, maxPerHour);
      var out;
      ghost var picks;
      out, picks := queue.ClaimMessages(BATCH, LOCK);
      ghost var step, claimed := ClaimGoes(Facts(), start, r, picks, out.Ok?);
      trace := [Check(0), step];
      history := claimed.history;
      if out.Err? {
        assert Snapshot(Idle) == claimed;
        RoundFails(Facts(), start, r, step, claimed, Books());
        return Err(()), trace;
      }
      ghost var jobs := JobsOf(queue.messages, picks.value);
      ReturnedInQueue(queue.messages, picks.value, out.value, handed);
      RemainingAll(jobs);
      assert Snapshot(Remaining(jobs, 0)) == claimed;
      ghost var more;
      ghost var q := Books();
      more := DeliverAll(out.value, jobs);
      RoundOn(Facts(), start, r, step, claimed, q, more, Snapshot(Idle), Books());
      trace := trace + more;
      assert trace != [];
      n := Ok(|out.value|);
    }
  }
}
