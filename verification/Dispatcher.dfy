// internal/worker/webhooks.go, the Dispatcher's loop body on the database: a run of the
// webhook protocol in the world its store and the endpoints make.
module Dispatcher {
  import opened Prelude
  import opened Utf8
  import opened Backoff
  import opened WebhookQueue
  import opened WebhookProtocol

  datatype Response = Response(outcome: Outcome, reason: Bytes)

  // How each statement ends, which rows others have locked at it, and what becomes of the ith
  // request made.
  datatype World = World(fate: nat -> Write, locked: nat -> set<Key>, endpoint: (nat, PendingDelivery) -> Response)

  // Statements made and requests made.
  datatype Rest = Rest(calls: nat, requests: seq<PendingDelivery>)

  // ---- Runs in a world ----

  predicate HasItem(s: State) {
    Active(s, 0) && s.dispatchers[0].batch[0].key in s.deliveries && s.dispatchers[0].batch[0].key.endpoint in s.endpoints
  }

  // What the claim returned of the delivery in hand.
  function InHand(s: State): PendingDelivery
    requires HasItem(s)
  {
    var job := s.dispatchers[0].batch[0];
    var e := s.endpoints[job.key.endpoint];
    PendingDelivery(job.key, e.url, e.secret, s.deliveries[job.key].payload, job.attempts)
  }

  ghost predicate Follows(world: World, s: State, r: Rest, step: Step)
    requires Enabled(s, step)
  {
    var end := world.fate(r.calls);
    match step
    case Pass(_) => true
    case Claim(w, _, busy, received) => w == 0 && !end.Refused? && busy == world.locked(r.calls) && (received <==> end.Written?)
    case Answer(w, outcome, reason) =>
      w == 0 && HasItem(s) && Response(outcome, reason) == world.endpoint(|r.requests|, InHand(s))
    case Settle(w, clock, write) =>
      var reply := s.dispatchers[w].answer.value;
      && w == 0 && clock == s.now
      && write == if CanMark(MarkFor(reply.outcome, reply.reason, s.dispatchers[w].batch[0].attempts, clock)) then end else Refused
    case _ => false
  }

  ghost function Tally(world: World, s: State, r: Rest, step: Step): Rest
    requires Enabled(s, step) && Follows(world, s, r, step)
  {
    match step
    case Pass(_) => r
    case Answer(_, _, _) => r.(requests := r.requests + [InHand(s)])
    case _ => r.(calls := r.calls + 1)
  }

  ghost predicate Goes(world: World, s: State, r: Rest, trace: seq<Step>, t: State, q: Rest)
    decreases |trace|
  {
    if trace == [] then s == t && r == q
    else
      && Enabled(s, trace[0]) && Follows(world, s, r, trace[0])
      && Goes(world, Next(s, trace[0]), Tally(world, s, r, trace[0]), trace[1..], t, q)
  }

  lemma GoesNone(world: World, s: State, r: Rest)
    ensures Goes(world, s, r, [], s, r)
  {
  }

  lemma GoesOne(world: World, s: State, r: Rest, step: Step)
    requires Enabled(s, step) && Follows(world, s, r, step)
    ensures Goes(world, s, r, [step], Next(s, step), Tally(world, s, r, step))
  {
    hide Enabled, Follows, Next, Tally;
    assert [step][1..] == [];
    GoesNone(world, Next(s, step), Tally(world, s, r, step));
  }

  lemma {:induction false} GoesOn(world: World, s: State, r: Rest, trace: seq<Step>, t: State, q: Rest,
                                  more: seq<Step>, u: State, p: Rest)
    requires Goes(world, s, r, trace, t, q) && Goes(world, t, q, more, u, p)
    ensures Goes(world, s, r, trace + more, u, p)
    decreases |trace|
  {
    hide Enabled, Follows, Next, Tally;
    if trace == [] {
      assert trace + more == more;
    } else {
      assert (trace + more)[0] == trace[0] && (trace + more)[1..] == trace[1..] + more;
      GoesOn(world, Next(s, trace[0]), Tally(world, s, r, trace[0]), trace[1..], t, q, more, u, p);
    }
  }

  lemma GoesMore(world: World, s: State, r: Rest, trace: seq<Step>, t: State, q: Rest, step: Step)
    requires Goes(world, s, r, trace, t, q) && Enabled(t, step) && Follows(world, t, q, step)
    ensures Goes(world, s, r, trace + [step], Next(t, step), Tally(world, t, q, step))
  {
    hide Enabled, Follows, Next, Tally, Goes;
    GoesOne(world, t, q, step);
    GoesOn(world, s, r, trace, t, q, [step], Next(t, step), Tally(world, t, q, step));
  }

  // What a dispatcher does in a world is a run of the webhook protocol, without a crash.
  lemma {:induction false} GoesRuns(world: World, s: State, r: Rest, trace: seq<Step>, t: State, q: Rest)
    requires Goes(world, s, r, trace, t, q)
    ensures WebhookProtocol.Valid(s, trace) && Exec(s, trace) == t
    ensures forall i :: 0 <= i < |trace| ==> !trace[i].Crash?
    decreases |trace|
  {
    hide Next, Tally;
    if trace != [] {
      GoesRuns(world, Next(s, trace[0]), Tally(world, s, r, trace[0]), trace[1..], t, q);
      RunsFrom(s, trace[0], trace[1..]);
      assert [trace[0]] + trace[1..] == trace;
    }
  }

  // A step and a run from where it leads are a run.
  lemma {:induction false} RunsFrom(s: State, step: Step, more: seq<Step>)
    requires Enabled(s, step) && WebhookProtocol.Valid(Next(s, step), more)
    ensures WebhookProtocol.Valid(s, [step] + more) && Exec(s, [step] + more) == Exec(Next(s, step), more)
    decreases |more|
  {
    hide Next, Enabled;
    var all := [step] + more;
    if more == [] {
      assert all[..0] == [] && all[0] == step;
    } else {
      RunsFrom(s, step, more[..|more| - 1]);
      assert all[..|all| - 1] == [step] + more[..|more| - 1];
    }
  }

  // ---- The pieces of a run ----

  // No second claim.
  predicate Inner(trace: seq<Step>) {
    forall i :: 0 <= i < |trace| ==> !trace[i].Claim?
  }

  lemma InnerNone()
    ensures Inner([])
  {
  }

  lemma InnerMore(trace: seq<Step>, more: seq<Step>)
    requires Inner(trace) && Inner(more)
    ensures Inner(trace + more)
  {
  }

  lemma AnswerStep(world: World, s: State, r: Rest, d: nat, outcome: Outcome, reason: Bytes)
    requires HasItem(s) && s.dispatchers == [Phase(s.dispatchers[0].batch, None)]
    requires Response(outcome, reason) == world.endpoint(|r.requests|, InHand(s))
    ensures var t, step := s.(now := s.now + d), Answer(0, outcome, reason);
            && Next(s, Pass(d)) == t && Tally(world, s, r, Pass(d)) == r
            && Enabled(t, step) && Follows(world, t, r, step) && Tally(world, t, r, step) == Rest(r.calls, r.requests + [InHand(s)])
            && Next(t, step) == t.(history := Judged(s.history, s.dispatchers[0].batch[0], outcome),
                                   dispatchers := [Phase(s.dispatchers[0].batch, Some(Reply(outcome, reason, t.now)))])
  {
    hide Judged;
  }

  lemma SettleStep(world: World, s: State, r: Rest, batch: seq<Job>, outcome: Outcome, reason: Bytes, write: Write)
    requires batch != [] && s.dispatchers == [Phase(batch, Some(Reply(outcome, reason, s.now)))]
    requires write == if CanMark(MarkFor(outcome, reason, batch[0].attempts, s.now)) then world.fate(r.calls) else Refused
    ensures var step := Settle(0, s.now, write);
            && Enabled(s, step) && Follows(world, s, r, step) && Tally(world, s, r, step) == r.(calls := r.calls + 1)
            && Next(s, step) ==
               s.(dispatchers := [Phase(batch[1..], None)],
                  deliveries := if write.Refused? then s.deliveries
                                else MarkRows(s.deliveries, batch[0].key, MarkFor(outcome, reason, batch[0].attempts, s.now)))
  {
    hide MarkFor, CanMark, MarkRows;
  }

  // One request and the writing of its outcome.
  lemma DeliverGoes(world: World, s: State, r: Rest, d: nat, outcome: Outcome, reason: Bytes, write: Write)
    requires HasItem(s) && s.dispatchers == [Phase(s.dispatchers[0].batch, None)]
    requires Response(outcome, reason) == world.endpoint(|r.requests|, InHand(s))
    requires write == if CanMark(MarkFor(outcome, reason, s.dispatchers[0].batch[0].attempts, s.now + d)) then world.fate(r.calls) else Refused
    ensures var batch := s.dispatchers[0].batch;
            var mark := MarkFor(outcome, reason, batch[0].attempts, s.now + d);
            Goes(world, s, r, [Pass(d), Answer(0, outcome, reason), Settle(0, s.now + d, write)],
                 s.(now := s.now + d, history := Judged(s.history, batch[0], outcome), dispatchers := [Phase(batch[1..], None)],
                    deliveries := if write.Refused? then s.deliveries else MarkRows(s.deliveries, batch[0].key, mark)),
                 Rest(r.calls + 1, r.requests + [InHand(s)]))
  {
    AnswerStep(world, s, r, d, outcome, reason);
    hide Goes, Judged, MarkRows, MarkFor, CanMark, Next, Tally, Enabled, Follows;
    var waited := s.(now := s.now + d);
    var answered, q := Next(waited, Answer(0, outcome, reason)), Rest(r.calls, r.requests + [InHand(s)]);
    SettleStep(world, answered, q, s.dispatchers[0].batch, outcome, reason, write);
    PassEnabled(world, s, r, d);
    GoesThree(world, s, r, Pass(d), Answer(0, outcome, reason), Settle(0, s.now + d, write), waited, r, answered, q);
  }

  lemma GoesThree(world: World, s: State, r: Rest, x: Step, y: Step, z: Step, t: State, p: Rest, u: State, q: Rest)
    requires Enabled(s, x) && Follows(world, s, r, x) && Next(s, x) == t && Tally(world, s, r, x) == p
    requires Enabled(t, y) && Follows(world, t, p, y) && Next(t, y) == u && Tally(world, t, p, y) == q
    requires Enabled(u, z) && Follows(world, u, q, z)
    ensures Goes(world, s, r, [x, y, z], Next(u, z), Tally(world, u, q, z))
  {
    hide Goes, Next, Tally, Enabled, Follows;
    GoesOne(world, s, r, x);
    GoesMore(world, s, r, [x], t, p, y);
    assert [x] + [y] == [x, y];
    GoesMore(world, s, r, [x, y], u, q, z);
    assert [x, y] + [z] == [x, y, z];
  }

  lemma PassEnabled(world: World, s: State, r: Rest, d: nat)
    ensures Enabled(s, Pass(d)) && Follows(world, s, r, Pass(d))
  {
  }

  // Each delivery claimed is still in the table, with its endpoint, as it was returned.
  ghost predicate StillThere(endpoints: map<int, Endpoint>, rows: map<Key, Delivery>, items: seq<PendingDelivery>) {
    forall item :: item in items ==>
      && item.key in rows && item.key.endpoint in endpoints && item.payload == rows[item.key].payload
      && item.url == endpoints[item.key.endpoint].url && item.secret == endpoints[item.key.endpoint].secret
  }

  lemma StillThereAfter(endpoints: map<int, Endpoint>, rows: map<Key, Delivery>, items: seq<PendingDelivery>, k: Key, mark: Mark)
    requires StillThere(endpoints, rows, items)
    ensures StillThere(endpoints, MarkRows(rows, k, mark), items)
  {
    hide Truncate;
  }

  lemma OneThere(endpoints: map<int, Endpoint>, rows: map<Key, Delivery>, items: seq<PendingDelivery>, i: nat)
    requires StillThere(endpoints, rows, items) && i < |items|
    ensures StillThere(endpoints, rows, [items[i]])
  {
    assert items[i] in items;
  }

  lemma ReturnedThere(endpoints: map<int, Endpoint>, rows: map<Key, Delivery>, picks: seq<Key>, items: seq<PendingDelivery>)
    requires |items| == |picks| && forall i :: 0 <= i < |items| ==> IsPending(endpoints, rows, picks[i], items[i])
    ensures StillThere(endpoints, rows, items)
    ensures forall i :: 0 <= i < |items| ==> items[i].key == picks[i]
  {
  }

  lemma Rests(jobs: seq<Job>, i: nat)
    requires i <= |jobs|
    ensures jobs[0..] == jobs && jobs[|jobs|..] == []
    ensures i < |jobs| ==> jobs[i..] != [] && jobs[i..][0] == jobs[i] && jobs[i..][1..] == jobs[i + 1..]
  {
  }

  // A round in which the claim is made. If its result is lost the round ends with the error;
  // if not, every delivery claimed is sent, in order, and their number is returned.
  ghost predicate Round(world: World, s: State, r: Rest, trace: seq<Step>, t: State, q: Rest, n: Result<nat, ()>) {
    && Goes(world, s, r, trace, t, q)
    && trace != [] && trace[0].Claim? && Inner(trace[1..])
    && if trace[0].received then n == Ok(|trace[0].picks|) && SentOut(r.requests, trace[0].picks, q.requests)
       else n.Err? && |trace| == 1 && q.requests == r.requests
  }

  ghost predicate SentOut(was: seq<PendingDelivery>, picks: seq<Key>, requests: seq<PendingDelivery>) {
    && |requests| == |was| + |picks| && was <= requests
    && forall i :: 0 <= i < |picks| ==> requests[|was| + i].key == picks[i]
  }

  lemma RoundOn(world: World, s: State, r: Rest, step: Step, mid: State, b: Rest, more: seq<Step>, t: State, q: Rest,
                items: seq<PendingDelivery>)
    requires Goes(world, s, r, [step], mid, b) && Goes(world, mid, b, more, t, q) && Inner(more)
    requires step.Claim? && step.received && q.requests == r.requests + items && |items| == |step.picks|
    requires forall i :: 0 <= i < |items| ==> items[i].key == step.picks[i]
    ensures Round(world, s, r, [step] + more, t, q, Ok(|step.picks|))
  {
    hide Goes;
    GoesOn(world, s, r, [step], mid, b, more, t, q);
    assert ([step] + more)[1..] == more;
  }

  lemma RoundFails(world: World, s: State, r: Rest, step: Step, t: State, q: Rest)
    requires Goes(world, s, r, [step], t, q) && q.requests == r.requests && step.Claim? && !step.received
    ensures Round(world, s, r, [step], t, q, Err(()))
  {
    hide Goes;
    assert [step][1..] == [];
  }

  lemma ClaimGoes(world: World, s: State, r: Rest, picks: seq<Key>)
    requires s.dispatchers == [Phase([], None)] && !world.fate(r.calls).Refused?
    requires IsClaim(s.deliveries, s.now, BATCH, world.locked(r.calls), picks)
    ensures var received := world.fate(r.calls).Written?;
            var rows := ClaimRows(s.deliveries, picks, s.now, LOCK);
            && (forall k :: k in picks ==> k in rows)
            && Goes(world, s, r, [Claim(0, picks, world.locked(r.calls), received)],
                    s.(deliveries := rows, history := GrantedTo(s.history, picks, 0, s.now),
                       dispatchers := [Phase(if received then JobsOf(rows, picks) else [], None)]),
                    r.(calls := r.calls + 1))
  {
    hide Goes, Due, GrantedTo, ClaimRow;
    var step := Claim(0, picks, world.locked(r.calls), world.fate(r.calls).Written?);
    GoesOne(world, s, r, step);
    assert Tally(world, s, r, step) == r.(calls := r.calls + 1);
    assert Next(s, step).dispatchers == [Phase(if step.received then JobsOf(ClaimRows(s.deliveries, picks, s.now, LOCK), picks) else [], None)];
  }

  // ---- The program ----

  class Dispatcher {
    const queue: Store
    const endpoint: (nat, PendingDelivery) -> Response
    var requests: seq<PendingDelivery>
    ghost var history: map<Key, History>

    constructor (queue: Store, endpoint: (nat, PendingDelivery) -> Response)
      ensures this.queue == queue && this.endpoint == endpoint && requests == []
    {
      this.queue, this.endpoint := queue, endpoint;
      requests := [];
    }

    // The protocol's state, with this dispatcher alone.
    ghost function Snapshot(phase: Phase): State
      reads this, queue
    {
      State(queue.now, queue.endpoints, queue.deliveries, [phase], history)
    }

    ghost function Facts(): World {
      World(queue.fate, queue.locked, endpoint)
    }

    ghost function Books(): Rest
      reads this, queue
    {
      Rest(queue.calls, requests)
    }

    method Elapse() returns (ghost d: nat)
      requires queue.Valid()
      modifies queue`now
      ensures queue.Valid() && queue.now == old(queue.now) + d
    {
      var passed: nat := *;
      queue.now := queue.now + passed;
      d := passed;
    }

    // Delivered is settled, a blocked destination is dropped, and anything else is tried
    // again until the last try.
    method Deliver(item: PendingDelivery, ghost batch: seq<Job>) returns (ghost trace: seq<Step>)
      requires queue.Valid() && batch != [] && batch[0] == Job(item.key, item.attempts)
      requires StillThere(queue.endpoints, queue.deliveries, [item])
      modifies this`history, this`requests, queue`now, queue`calls, queue`deliveries
      ensures queue.Valid()
      ensures Goes(Facts(), old(Snapshot(Phase(batch, None))), old(Books()), trace, Snapshot(Phase(batch[1..], None)), Books())
      ensures requests == old(requests) + [item] && Inner(trace)
      ensures forall items :: StillThere(queue.endpoints, old(queue.deliveries), items) ==>
                StillThere(queue.endpoints, queue.deliveries, items)
    {
      hide Delay, Encode, CanMark, MarkRows, Goes, Judged;
      ghost var start, r := Snapshot(Phase(batch, None)), Books();
      ghost var d := Elapse();
      assert item in [item];
      assert InHand(start) == item;
      var response := endpoint(|requests|, item);
      requests := requests + [item];
      history := Judged(history, batch[0], response.outcome);
      var ok;
      ghost var write;
      ghost var mark := MarkFor(response.outcome, response.reason, item.attempts, queue.now);
      match response.outcome {
        case Delivered => ok, write := queue.MarkDelivery(item.key, Succeed);
        case Drop => ok, write := queue.MarkDelivery(item.key, Fail(response.reason));
        case Retry =>
          if item.attempts >= MAX_TRIES {
            ok, write := queue.MarkDelivery(item.key, Fail(GAVE_UP + response.reason));
          } else {
            var at := queue.now + Delay(item.attempts);
            ok, write := queue.MarkDelivery(item.key, Reschedule(at, response.reason));
          }
      }
      forall items | StillThere(queue.endpoints, start.deliveries, items)
        ensures StillThere(queue.endpoints, queue.deliveries, items)
      {
        StillThereAfter(queue.endpoints, start.deliveries, items, item.key, mark);
      }
      DeliverGoes(Facts(), start, r, d, response.outcome, response.reason, write);
      trace := [Pass(d), Answer(0, response.outcome, response.reason), Settle(0, queue.now, write)];
    }

    // One round of the loop. Nothing happens exactly if the claim is refused.
    method Tick() returns (n: Result<nat, ()>, ghost trace: seq<Step>)
      requires queue.Valid()
      modifies this`history, this`requests, queue`now, queue`calls, queue`deliveries
      ensures queue.Valid()
      ensures trace == [] <==> queue.fate(old(queue.calls)).Refused?
      ensures trace == [] ==>
                && Snapshot(Phase([], None)) == old(Snapshot(Phase([], None)))
                && Books() == old(Books()).(calls := old(queue.calls) + 1) && n.Err?
      ensures trace != [] ==> Round(Facts(), old(Snapshot(Phase([], None))), old(Books()), trace, Snapshot(Phase([], None)), Books(), n)
    {
      hide Goes, IsClaim, ClaimRows, GrantedTo, Round, Inner, StillThere, Store.Valid;
      ghost var start, r := Snapshot(Phase([], None)), Books();
      trace := [];
      var out;
      ghost var picks;
      out, picks := queue.ClaimDeliveries(BATCH, LOCK);
      if picks.Some? {
        ClaimGoes(Facts(), start, r, picks.value);
        history := GrantedTo(history, picks.value, 0, queue.now);
        trace := [Claim(0, picks.value, queue.locked(r.calls), out.Ok?)];
      }
      if out.Err? {
        if picks.Some? {
          RoundFails(Facts(), start, r, trace[0], Snapshot(Phase([], None)), Books());
        }
        return Err(()), trace;
      }
      ghost var jobs := JobsOf(queue.deliveries, picks.value);
      ghost var claimed, q := Snapshot(Phase(jobs, None)), Books();
      ReturnedThere(queue.endpoints, queue.deliveries, picks.value, out.value);
      ghost var more: seq<Step> := [];
      GoesNone(Facts(), claimed, q);
      Rests(jobs, 0);
      InnerNone();
      for i := 0 to |out.value|
        invariant queue.Valid() && StillThere(queue.endpoints, queue.deliveries, out.value)
        invariant Goes(Facts(), claimed, q, more, Snapshot(Phase(jobs[i..], None)), Books()) && Inner(more)
        invariant requests == old(requests) + out.value[..i]
      {
        ghost var before, b := Snapshot(Phase(jobs[i..], None)), Books();
        ghost var next;
        OneThere(queue.endpoints, queue.deliveries, out.value, i);
        Rests(jobs, i);
        next := Deliver(out.value[i], jobs[i..]);
        GoesOn(Facts(), claimed, q, more, before, b, next, Snapshot(Phase(jobs[i + 1..], None)), Books());
        InnerMore(more, next);
        more := more + next;
      }
      Rests(jobs, 0);
      assert out.value[..|out.value|] == out.value;
      RoundOn(Facts(), start, r, trace[0], claimed, q, more, Snapshot(Phase([], None)), Books(), out.value);
      trace := trace + more;
      n := Ok(|out.value|);
    }
  }
}
