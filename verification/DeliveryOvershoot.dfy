// The ceiling is tested once a batch and counts recorded events, so batches go past it: how
// far, exactly.
module DeliveryOvershoot {
  import opened Prelude
  import opened Utf8
  import opened Backoff
  import opened MessageQueue
  import opened DeliveryProtocol
  import opened DeliverySafety
  import JsonString
  import RW = RateWindow

  // ---- A supply of messages ----

  function Row(now: int): Message {
    Message(Queued, 0, None, None, None, now, Some([]))
  }

  // Nothing queued so far is claimable, and longer names are free.
  ghost predicate Done(s: State, n: nat) {
    forall id :: id in s.messages ==> |id| < n && s.messages[id].status !in {Queued, Deferred}
  }

  // So it is but for new messages of these names.
  ghost predicate Waiting(s: State, n: nat, ids: seq<Id>) {
    && (forall id :: id in s.messages ==>
          (|id| < n && s.messages[id].status !in {Queued, Deferred}) || (id in ids && s.messages[id] == Row(s.now)))
    && (forall i :: 0 <= i < |ids| ==> ids[i] in s.messages && |ids[i]| == n + i)
  }

  // So it is while worker w has a batch in hand.
  ghost predicate InHand(s: State, w: nat, n: nat) {
    && Active(s, w) && s.workers[w].stage == Ready && Done(s, n)
    && forall i :: 0 <= i < |s.workers[w].batch| ==> s.workers[w].batch[i].id in s.messages
  }

  // m messages were sent, all in this instant.
  ghost predicate Sent(s: State, m: nat) {
    SentStamps(s.events) == RW.Copies(s.now, m)
  }

  // ---- One batch ----

  lemma EnqueueIs(t: State, id: Id, ceiling: int)
    requires id !in t.messages
    ensures var step := Enqueue(id, t.now, None, Some([]));
            Enabled(t, step, ceiling) &&
            var u := Next(t, step, ceiling);
            u.messages == t.messages[id := Row(t.now)] && u.now == t.now && u.workers == t.workers && u.events == t.events
  {
    hide Encode, IsClaim, MarkFor, MarkRows;
  }

  lemma QueueOne(t: State, n: nat, ids: seq<Id>, ceiling: int)
    requires Waiting(t, n, ids)
    ensures var id := NthName(n + |ids|);
            var step := Enqueue(id, t.now, None, Some([]));
            Enabled(t, step, ceiling) &&
            var u := Next(t, step, ceiling);
            Waiting(u, n, ids + [id]) && u.now == t.now && u.workers == t.workers && u.events == t.events
  {
    hide NthName, Enabled, Next, Row;
    var id := NthName(n + |ids|);
    EnqueueIs(t, id, ceiling);
  }

  lemma NoneWaiting(t: State, n: nat)
    requires Done(t, n)
    ensures Waiting(t, n, [])
  {
  }

  lemma {:induction false} QueueBatch(s: State, steps: seq<Step>, t: State, n: nat, k: nat, ceiling: int)
    returns (more: seq<Step>, u: State, ids: seq<Id>)
    requires Runs(s, steps, t, ceiling) && Done(t, n)
    ensures Runs(s, more, u, ceiling) && |ids| == k && Waiting(u, n, ids)
    ensures u.now == t.now && u.workers == t.workers && u.events == t.events
  {
    hide Runs, Done, Waiting, Enabled, Next, NthName;
    if k == 0 {
      NoneWaiting(t, n);
      more, u, ids := steps, t, [];
    } else {
      more, u, ids := QueueBatch(s, steps, t, n, k - 1, ceiling);
      QueueOne(u, n, ids, ceiling);
      var id := NthName(n + |ids|);
      var step := Enqueue(id, u.now, None, Some([]));
      RunsMore(s, more, u, step, ceiling);
      more, u, ids := more + [step], Next(u, step, ceiling), ids + [id];
    }
  }

  lemma AllAreDue(t: State, n: nat, ids: seq<Id>)
    requires Waiting(t, n, ids) && |ids| <= BATCH
    ensures IsClaim(t.messages, t.now, BATCH, {}, ids)
  {
    forall i, j | 0 <= i < j < |ids|
      ensures ids[i] != ids[j]
    {
      assert |ids[i]| != |ids[j]|;
    }
  }

  lemma ClaimIs(t: State, w: nat, ids: seq<Id>, ceiling: int)
    requires IsClaim(t.messages, t.now, BATCH, {}, ids) && ids != [] && w < |t.workers| && t.workers[w] == Checked
    ensures var step := Claim(w, ids, {}, true);
            Enabled(t, step, ceiling) &&
            var u := Next(t, step, ceiling);
            && u.messages == ClaimRows(t.messages, ids, t.now, LOCK)
            && u.now == t.now && u.workers == t.workers[w := Working(JobsOf(u.messages, ids), Ready)] && u.events == t.events
  {
    hide Encode, GrantedTo, ClaimRow, MarkFor, MarkRows;
  }

  lemma ClaimedIsSending(m: Message, now: int)
    ensures ClaimRow(m, now, LOCK).status == Sending
  {
  }

  lemma ClaimHands(t: State, w: nat, n: nat, ids: seq<Id>, ceiling: int)
    requires Waiting(t, n, ids) && 1 <= |ids| <= BATCH && w < |t.workers| && t.workers[w] == Checked
    ensures var step := Claim(w, ids, {}, true);
            Enabled(t, step, ceiling) &&
            var u := Next(t, step, ceiling);
            && InHand(u, w, n + |ids|) && |u.workers[w].batch| == |ids|
            && u.now == t.now && u.workers == t.workers[w := u.workers[w]] && u.events == t.events
  {
    hide IsClaim, Enabled, Next, ClaimRow;
    AllAreDue(t, n, ids);
    ClaimIs(t, w, ids, ceiling);
    var u := Next(t, Claim(w, ids, {}, true), ceiling);
    var batch := u.workers[w].batch;
    assert forall i :: 0 <= i < |ids| ==> batch[i].id == ids[i];
    forall id | id in u.messages
      ensures |id| < n + |ids| && u.messages[id].status !in {Queued, Deferred}
    {
      ClaimedIsSending(t.messages[id], t.now);
      if id in ids {
        var i :| 0 <= i < |ids| && ids[i] == id;
      }
    }
  }

  // The worker sends the first message of its batch and records it.
  lemma SendFirst(s: State, steps: seq<Step>, t: State, w: nat, ceiling: int) returns (more: seq<Step>, u: State)
    requires Runs(s, steps, t, ceiling) && Active(t, w) && t.workers[w].stage == Ready
    requires t.workers[w].batch[0].id in t.messages
    ensures Runs(s, more, u, ceiling) && u.now == t.now
    ensures u.messages == MarkRows(t.messages, t.workers[w].batch[0].id, MarkSent)
    ensures u.workers == t.workers[w := Finished(t.workers[w].batch)]
    ensures |u.events| == |t.events| + 1 && u.events[..|t.events|] == t.events
    ensures u.events[|t.events|].kind == SENT && u.events[|t.events|].at == t.now
  {
    hide Runs, Encode, Delay, Truncate, JsonString.EventDetail;
    more, u := steps, t;
    RunsMore(s, more, u, Answer(w, Reply.Sent, []), ceiling);
    more, u := more + [Answer(w, Reply.Sent, [])], Next(u, Answer(w, Reply.Sent, []), ceiling);
    RunsMore(s, more, u, Step.Mark(w, t.now, Written), ceiling);
    more, u := more + [Step.Mark(w, t.now, Written)], Next(u, Step.Mark(w, t.now, Written), ceiling);
    RunsMore(s, more, u, Record(w, Written), ceiling);
    more, u := more + [Record(w, Written)], Next(u, Record(w, Written), ceiling);
    RunsMore(s, more, u, Publish(w, false), ceiling);
    more, u := more + [Publish(w, false)], Next(u, Publish(w, false), ceiling);
  }

  lemma SentOneMore(t: State, u: State, m: nat)
    requires Sent(t, m) && u.now == t.now
    requires |u.events| == |t.events| + 1 && u.events[..|t.events|] == t.events
    requires u.events[|t.events|].kind == SENT && u.events[|t.events|].at == t.now
    ensures Sent(u, m + 1)
  {
  }

  // What is left in hand after that.
  lemma HandLess(t: State, u: State, w: nat, n: nat)
    requires InHand(t, w, n)
    requires u.messages == MarkRows(t.messages, t.workers[w].batch[0].id, MarkSent)
    requires u.workers == t.workers[w := Finished(t.workers[w].batch)]
    ensures if |t.workers[w].batch| == 1 then Done(u, n)
            else InHand(u, w, n) && u.workers[w].batch == t.workers[w].batch[1..]
  {
    hide Encode;
  }

  lemma {:induction false} SendBatch(s: State, steps: seq<Step>, t: State, w: nat, n: nat, m: nat, ceiling: int)
    returns (more: seq<Step>, u: State)
    requires Runs(s, steps, t, ceiling) && InHand(t, w, n) && Sent(t, m)
    ensures Runs(s, more, u, ceiling) && Done(u, n) && Sent(u, m + |t.workers[w].batch|)
    ensures u.now == t.now && u.workers == t.workers[w := Idle]
    decreases |t.workers[w].batch|
  {
    hide Runs, Sent, Done, Enabled, Next, MarkRows;
    more, u := SendFirst(s, steps, t, w, ceiling);
    SentOneMore(t, u, m);
    HandLess(t, u, w, n);
    if |t.workers[w].batch| > 1 {
      more, u := SendBatch(s, more, u, w, n, m + 1, ceiling);
    }
  }

  lemma SameLog(t: State, u: State, n: nat, m: nat)
    requires Done(t, n) && Sent(t, m) && u.now == t.now && u.messages == t.messages && u.events == t.events
    ensures Done(u, n) && Sent(u, m)
  {
  }

  lemma SameSent(t: State, u: State, m: nat)
    requires Sent(t, m) && u.now == t.now && u.events == t.events
    ensures Sent(u, m)
  {
  }

  // A worker whose test has passed is given k messages and sends them.
  lemma Round(s: State, steps: seq<Step>, t: State, w: nat, n: nat, k: nat, m: nat, ceiling: int)
    returns (more: seq<Step>, u: State)
    requires Runs(s, steps, t, ceiling) && Done(t, n) && Sent(t, m) && 1 <= k <= BATCH
    requires w < |t.workers| && t.workers[w] == Checked
    ensures Runs(s, more, u, ceiling) && Done(u, n + k) && Sent(u, m + k)
    ensures u.now == t.now && u.workers == t.workers[w := Idle]
  {
    hide *;
    var queue, v, ids := QueueBatch(s, steps, t, n, k, ceiling);
    var step := Claim(w, ids, {}, true);
    ClaimHands(v, w, n, ids, ceiling);
    RunsMore(s, queue, v, step, ceiling);
    var x := Next(v, step, ceiling);
    SameSent(t, x, m);
    more, u := SendBatch(s, queue + [step], x, w, n + k, m, ceiling);
  }

  // ---- The whole run ----

  lemma CheckPasses(s: State, steps: seq<Step>, t: State, w: nat, m: nat, ceiling: int)
    requires Runs(s, steps, t, ceiling) && Sent(t, m) && m < ceiling
    requires w < |t.workers| && t.workers[w] == Idle
    ensures Runs(s, steps + [Check(w)], At(t, w, Checked), ceiling)
  {
    hide Runs;
    SentStampsCount(t.events, t.now - HOUR);
    RW.CopiesBefore(t.now, m, t.now - HOUR);
    RunsMore(s, steps, t, Check(w), ceiling);
  }

  lemma Start(s: State, ceiling: int)
    requires Init(s)
    ensures Runs(s, [], s, ceiling) && Done(s, 0) && Sent(s, 0)
  {
  }

  lemma IdleAtFirst(s: State)
    requires Init(s) && s.workers != []
    ensures s.workers[0] == Idle && s.workers == Split(0, |s.workers|, Checked, Idle)
  {
  }

  lemma FillOne(s: State, steps: seq<Step>, t: State, m: nat, ceiling: int) returns (more: seq<Step>, u: State)
    requires Runs(s, steps, t, ceiling) && Done(t, m) && Sent(t, m) && m < ceiling && t.workers != [] && t.workers[0] == Idle
    ensures Runs(s, more, u, ceiling) && Done(u, m + 1) && Sent(u, m + 1)
    ensures u.now == t.now && u.workers == t.workers
  {
    hide Runs, Done, Sent, Enabled, Next;
    CheckPasses(s, steps, t, 0, m, ceiling);
    var checked := At(t, 0, Checked);
    SameLog(t, checked, m, m);
    more, u := Round(s, steps + [Check(0)], checked, 0, m, 1, m, ceiling);
    assert u.workers == t.workers;
  }

  // One message at a time, up to one short of the ceiling.
  lemma {:induction false} Fill(s: State, m: nat, ceiling: int) returns (steps: seq<Step>, t: State)
    requires Init(s) && s.workers != [] && m < ceiling
    ensures Runs(s, steps, t, ceiling) && Done(t, m) && Sent(t, m)
    ensures t.now == s.now && t.workers == s.workers
  {
    IdleAtFirst(s);
    hide *;
    if m == 0 {
      Start(s, ceiling);
      steps, t := [], s;
    } else {
      steps, t := Fill(s, m - 1, ceiling);
      steps, t := FillOne(s, steps, t, m - 1, ceiling);
    }
  }

  // The first k workers in one phase, the others in another.
  function Split(k: nat, n: nat, first: Phase, rest: Phase): (phases: seq<Phase>)
    ensures |phases| == n
  {
    seq(n, i => if i < k then first else rest)
  }

  lemma SplitStep(k: nat, n: nat, first: Phase, rest: Phase)
    requires k < n
    ensures Split(k, n, first, rest)[k] == rest && Split(k, n, first, rest)[k := first] == Split(k + 1, n, first, rest)
  {
  }

  lemma SplitEnds(n: nat, first: Phase, rest: Phase)
    ensures Split(n, n, first, rest) == Split(0, n, rest, first)
  {
  }

  // Then every worker's test passes, since nothing is sent between the tests.
  lemma {:induction false} CheckAll(s: State, steps: seq<Step>, t: State, k: nat, n: nat, m: nat, ceiling: int)
    returns (more: seq<Step>, u: State)
    requires Runs(s, steps, t, ceiling) && Done(t, n) && Sent(t, m) && m < ceiling && k <= |t.workers|
    requires t.workers == Split(0, |t.workers|, Checked, Idle)
    ensures Runs(s, more, u, ceiling) && Done(u, n) && Sent(u, m)
    ensures u.now == t.now && u.workers == Split(k, |t.workers|, Checked, Idle)
  {
    hide Runs, Done, Sent, Enabled, Next, Split;
    if k == 0 {
      more, u := steps, t;
    } else {
      more, u := CheckAll(s, steps, t, k - 1, n, m, ceiling);
      SplitStep(k - 1, |t.workers|, Checked, Idle);
      CheckPasses(s, more, u, k - 1, m, ceiling);
      SameLog(u, At(u, k - 1, Checked), n, m);
      more, u := more + [Check(k - 1)], At(u, k - 1, Checked);
    }
  }

  // And every worker sends a full batch.
  lemma {:induction false} SendAll(s: State, steps: seq<Step>, t: State, k: nat, n: nat, m: nat, ceiling: int)
    returns (more: seq<Step>, u: State)
    requires Runs(s, steps, t, ceiling) && Done(t, n) && Sent(t, m) && k <= |t.workers|
    requires t.workers == Split(0, |t.workers|, Idle, Checked)
    ensures Runs(s, more, u, ceiling) && Done(u, n + BATCH * k) && Sent(u, m + BATCH * k)
    ensures u.now == t.now && u.workers == Split(k, |t.workers|, Idle, Checked)
  {
    hide Runs, Done, Sent, Enabled, Next, Split;
    if k == 0 {
      more, u := steps, t;
    } else {
      more, u := SendAll(s, steps, t, k - 1, n, m, ceiling);
      SplitStep(k - 1, |t.workers|, Idle, Checked);
      more, u := Round(s, more, u, k - 1, n + BATCH * (k - 1), BATCH, m + BATCH * (k - 1), ceiling);
    }
  }

  // The run leaves m sent events in the hour after a.
  ghost predicate Fills(s: State, steps: seq<Step>, ceiling: int, a: int, m: int) {
    Valid(s, steps, ceiling) && RW.Inside(SentStamps(Exec(s, steps, ceiling).events), a) == m
  }

  lemma SentFills(s: State, steps: seq<Step>, t: State, ceiling: int, m: nat)
    requires Runs(s, steps, t, ceiling) && Sent(t, m)
    ensures Fills(s, steps, ceiling, t.now - 1, m)
  {
    RW.CopiesCount(t.now, m);
  }

  lemma BatchesAtOnce(s: State, steps: seq<Step>, t: State, m: nat, ceiling: int) returns (more: seq<Step>, u: State)
    requires Runs(s, steps, t, ceiling) && Done(t, m) && Sent(t, m) && m < ceiling
    requires t.workers == Split(0, |t.workers|, Checked, Idle)
    ensures Runs(s, more, u, ceiling) && Sent(u, m + BATCH * |t.workers|) && u.now == t.now
  {
    hide Runs, Done, Sent, Split;
    var n := |t.workers|;
    var testing, tested := CheckAll(s, steps, t, n, m, m, ceiling);
    SplitEnds(n, Checked, Idle);
    more, u := SendAll(s, testing, tested, n, m, m, ceiling);
  }

  // From the empty queue, a run that sends M - 1 + 10 N messages.
  lemma SendMost(s: State, ceiling: int) returns (steps: seq<Step>, t: State)
    requires Init(s) && ceiling > 0 && s.workers != []
    ensures Runs(s, steps, t, ceiling) && Sent(t, ceiling - 1 + BATCH * |s.workers|) && t.now == s.now
  {
    IdleAtFirst(s);
    hide Init, Runs, Done, Sent, Split;
    var filling, filled := Fill(s, ceiling - 1, ceiling);
    steps, t := BatchesAtOnce(s, filling, filled, ceiling - 1, ceiling);
  }

  // For every ceiling M and every number N of workers, some run from the empty queue sends
  // M - 1 + 10 N messages in one instant.
  lemma CeilingReached(s: State, ceiling: int)
    requires Init(s) && ceiling > 0 && s.workers != []
    ensures exists steps, a, m :: Fills(s, steps, ceiling, a, m) && m == ceiling - 1 + BATCH * |s.workers| && a == s.now - 1
  {
    hide Init, Runs, Sent, Fills;
    var steps, t := SendMost(s, ceiling);
    SentFills(s, steps, t, ceiling, ceiling - 1 + BATCH * |s.workers|);
  }

  // The ceiling itself is therefore kept by no number of workers: some run passes it.
  lemma CeilingOvershoots(s: State, ceiling: int)
    requires Init(s) && ceiling > 0 && s.workers != []
    ensures exists steps, a, m :: Fills(s, steps, ceiling, a, m) && m > ceiling
  {
    CeilingReached(s, ceiling);
    hide Fills;
  }

  // Every one-hour window of every run of n workers holds at most bound sent events.
  ghost predicate Bounds(n: nat, ceiling: int, bound: int) {
    forall s: State, steps, a: int, m: int :: Init(s) && |s.workers| == n && Fills(s, steps, ceiling, a, m) ==> m <= bound
  }

  // A bound on the sent events of an hour holds exactly if it is M - 1 + 10 N or more.
  lemma CeilingExactly(n: nat, ceiling: int, bound: int)
    requires n > 0 && ceiling > 0
    ensures Bounds(n, ceiling, bound) <==> bound >= ceiling - 1 + 10 * n
  {
    var s := State(0, map[], [], Split(n, n, Idle, Idle), map[], [], []);
    assert Init(s) && |s.workers| == n;
    CeilingReached(s, ceiling);
    hide Init;
    var steps, a, m :| Fills(s, steps, ceiling, a, m) && m == ceiling - 1 + BATCH * n;
    forall s: State, steps, a: int, m: int | Init(s) && |s.workers| == n && Fills(s, steps, ceiling, a, m)
      ensures m <= ceiling - 1 + BATCH * n
    {
      CeilingHolds(s, steps, ceiling, a);
    }
  }
}
