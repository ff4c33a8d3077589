// internal/worker/webhooks.go, the Dispatcher: any number of dispatchers on one queue of
// webhook deliveries, refining the same lease queue as message delivery.
module WebhookProtocol {
  import opened Prelude
  import opened Utf8
  import opened Backoff
  import opened WebhookQueue
  import LQ = LeaseQueue

  const BATCH := 20
  const LOCK := 2 * MINUTE
  const MAX_TRIES := 8

  datatype Outcome = Delivered | Retry | Drop

  datatype Job = Job(key: Key, attempts: nat)

  datatype Reply = Reply(outcome: Outcome, reason: Bytes, at: int)

  // The batch still to do, and the endpoint's answer for its first delivery.
  datatype Phase = Phase(batch: seq<Job>, answer: Option<Reply>)

  datatype History = History(owner: nat, grants: seq<int>, rulings: seq<LQ.Ruling>)

  datatype State = State(now: int, endpoints: map<int, Endpoint>, deliveries: map<Key, Delivery>, dispatchers: seq<Phase>,
                         history: map<Key, History>)

  datatype Step =
    | Pass(d: nat)
    | Configure(endpoints: map<int, Endpoint>)
    | Enqueue(eventId: string, messageId: string, payload: Bytes)
    | Claim(w: nat, picks: seq<Key>, busy: set<Key>, received: bool)
    | Answer(w: nat, outcome: Outcome, reason: Bytes)
    | Settle(w: nat, clock: int, write: Write)
    | Crash(w: nat)

  const GAVE_UP := Encode("gave up: ")

  // deliver's decision table.
  function MarkFor(outcome: Outcome, reason: Bytes, attempts: nat, clock: int): Mark {
    match outcome
    case Delivered => Succeed
    case Drop => Fail(reason)
    case Retry => if attempts >= MAX_TRIES then Fail(GAVE_UP + reason) else Reschedule(clock + Delay(attempts), reason)
  }

  predicate Active(s: State, w: nat) {
    w < |s.dispatchers| && s.dispatchers[w].batch != []
  }

  ghost predicate Enabled(s: State, step: Step) {
    match step
    case Pass(_) => true
    case Configure(_) => true
    case Enqueue(_, _, _) => true
    case Claim(w, picks, busy, _) =>
      w < |s.dispatchers| && s.dispatchers[w].batch == [] && IsClaim(s.deliveries, s.now, BATCH, busy, picks)
    case Answer(w, _, _) => Active(s, w) && s.dispatchers[w].answer.None?
    case Settle(w, clock, write) =>
      && Active(s, w) && s.dispatchers[w].answer.Some? && s.dispatchers[w].answer.value.at <= clock <= s.now
      && var reply := s.dispatchers[w].answer.value;
         !CanMark(MarkFor(reply.outcome, reply.reason, s.dispatchers[w].batch[0].attempts, clock)) ==> write.Refused?
    case Crash(w) => w < |s.dispatchers|
  }

  function VerdictOf(outcome: Outcome): LQ.Verdict {
    match outcome
    case Delivered => LQ.Accepted
    case Retry => LQ.TryLater
    case Drop => LQ.Rejected
  }

  function JobsOf(deliveries: map<Key, Delivery>, picks: seq<Key>): seq<Job>
    requires forall k :: k in picks ==> k in deliveries
  {
    seq(|picks|, i requires 0 <= i < |picks| => Job(picks[i], deliveries[picks[i]].attempts))
  }

  function GrantedTo(history: map<Key, History>, picks: seq<Key>, w: nat, now: int): map<Key, History> {
    map k | k in history :: if k in picks then History(w, history[k].grants + [now], history[k].rulings) else history[k]
  }

  function Judged(history: map<Key, History>, job: Job, outcome: Outcome): map<Key, History> {
    if job.key !in history then history
    else history[job.key := history[job.key].(rulings := history[job.key].rulings + [LQ.Ruling(job.attempts, VerdictOf(outcome))])]
  }

  ghost function Next(s: State, step: Step): State
    requires Enabled(s, step)
  {
    match step
    case Pass(d) => s.(now := s.now + d)
    case Configure(endpoints) => s.(endpoints := endpoints)
    case Enqueue(eventId, messageId, payload) =>
      s.(deliveries := EnqueueRows(s.endpoints, s.deliveries, eventId, messageId, payload, s.now),
         history := s.history + map k | k in NewKeys(s.endpoints, s.deliveries, eventId) :: History(0, [], []))
    case Claim(w, picks, _, received) =>
      var deliveries := ClaimRows(s.deliveries, picks, s.now, LOCK);
      var history := GrantedTo(s.history, picks, w, s.now);
      var phase := Phase(if received then JobsOf(deliveries, picks) else [], None);
      s.(deliveries := deliveries, history := history, dispatchers := s.dispatchers[w := phase])
    case Answer(w, outcome, reason) =>
      s.(dispatchers := s.dispatchers[w := s.dispatchers[w].(answer := Some(Reply(outcome, reason, s.now)))],
         history := Judged(s.history, s.dispatchers[w].batch[0], outcome))
    case Settle(w, clock, write) =>
      var job, reply := s.dispatchers[w].batch[0], s.dispatchers[w].answer.value;
      var mark := MarkFor(reply.outcome, reply.reason, job.attempts, clock);
      s.(deliveries := if write.Refused? then s.deliveries else MarkRows(s.deliveries, job.key, mark),
         dispatchers := s.dispatchers[w := Phase(s.dispatchers[w].batch[1..], None)])
    case Crash(w) => s.(dispatchers := s.dispatchers[w := Phase([], None)])
  }

  ghost predicate Valid(s: State, steps: seq<Step>)
    decreases |steps|, 0
  {
    steps == [] ||
    (Valid(s, steps[..|steps| - 1]) && Enabled(Exec(s, steps[..|steps| - 1]), steps[|steps| - 1]))
  }

  ghost function Exec(s: State, steps: seq<Step>): State
    requires Valid(s, steps)
    decreases |steps|, 1
  {
    if steps == [] then s else Next(Exec(s, steps[..|steps| - 1]), steps[|steps| - 1])
  }

  ghost predicate Init(s: State) {
    && s.deliveries == map[] && s.history == map[]
    && forall w :: 0 <= w < |s.dispatchers| ==> s.dispatchers[w] == Phase([], None)
  }

  // ---- The rows as leases ----

  function AbsStatus(status: Status): LQ.Status {
    match status
    case Pending => LQ.Ready
    case Delivering => LQ.Leased
    case Delivered => LQ.Done
    case Failed => LQ.Dead
  }

  function AbsRow(d: Delivery, h: History): LQ.Row {
    LQ.Row(AbsStatus(d.status), d.attempts, d.nextAttempt, h.owner, h.grants, h.rulings)
  }

  function AbsLeases(batch: seq<Job>): seq<LQ.Lease<Key>> {
    seq(|batch|, i requires 0 <= i < |batch| => LQ.Lease(batch[i].key, batch[i].attempts))
  }

  function AbsHolder(phase: Phase): LQ.Holder<Key> {
    LQ.Holder(AbsLeases(phase.batch),
              if phase.answer.None? then None
              else Some(LQ.Answer(VerdictOf(phase.answer.value.outcome), phase.answer.value.at)))
  }

  ghost function Abs(s: State): LQ.State<Key>
    requires s.history.Keys == s.deliveries.Keys
  {
    LQ.State(s.now, map k | k in s.deliveries :: AbsRow(s.deliveries[k], s.history[k]),
             seq(|s.dispatchers|, w requires 0 <= w < |s.dispatchers| => AbsHolder(s.dispatchers[w])))
  }

  ghost predicate Inv(s: State) {
    s.history.Keys == s.deliveries.Keys && LQ.Inv(Abs(s))
  }

  ghost function AbsStep(s: State, step: Step): seq<LQ.Step<Key>> {
    match step
    case Pass(d) => [LQ.Pass(d)]
    case Configure(_) => []
    case Enqueue(eventId, _, _) => [LQ.Insert(NewKeys(s.endpoints, s.deliveries, eventId), s.now)]
    case Claim(w, picks, _, received) => [LQ.Grant(w, picks, received)]
    case Answer(w, outcome, _) => [LQ.Rule(w, VerdictOf(outcome))]
    case Settle(w, clock, write) => if write.Refused? then [LQ.Drop(w)] else [LQ.Settle(w, clock)]
    case Crash(w) => [LQ.Crash(w)]
  }

  ghost predicate Simulates(s: State, step: Step)
    requires Inv(s) && Enabled(s, step)
  {
    var t := Next(s, step);
    && t.history.Keys == t.deliveries.Keys
    && if AbsStep(s, step) == [] then Abs(t) == Abs(s)
       else LQ.Enabled(Abs(s), AbsStep(s, step)[0]) && Abs(t) == LQ.Next(Abs(s), AbsStep(s, step)[0])
  }

  lemma PlainStep(s: State, step: Step)
    requires Inv(s) && Enabled(s, step)
    requires step.Pass? || step.Configure? || step.Crash? || step.Enqueue?
    ensures Simulates(s, step)
  {
    hide LQ.Inv;
    var t := Next(s, step);
    if step.Configure? {
      assert Abs(t) == Abs(s);
    } else {
      assert AbsLeases([]) == [];
      var u := LQ.Next(Abs(s), AbsStep(s, step)[0]);
      if step.Enqueue? {
        EnqueueRowsAbs(s, step);
        hide AbsRow;
      } else {
        assert Abs(t).rows == u.rows;
      }
      assert Abs(t).holders == u.holders;
    }
  }

  lemma EnqueueRowsAbs(s: State, step: Step)
    requires s.history.Keys == s.deliveries.Keys && Enabled(s, step) && step.Enqueue?
    ensures Next(s, step).history.Keys == Next(s, step).deliveries.Keys && LQ.Enabled(Abs(s), AbsStep(s, step)[0])
    ensures Abs(Next(s, step)).rows == LQ.Next(Abs(s), AbsStep(s, step)[0]).rows
  {
    hide AbsRow, AbsHolder, NewKeys, IsClaim, CanMark, MarkFor;
    NewKeysAreNew(s.endpoints, s.deliveries, step.eventId);
    FreshRowAbs(step.messageId, step.payload, s.now);
  }

  lemma NewKeysAreNew(endpoints: map<int, Endpoint>, rows: map<Key, Delivery>, eventId: string)
    ensures forall k :: k in NewKeys(endpoints, rows, eventId) ==> k !in rows
  {
  }

  lemma FreshRowAbs(messageId: string, payload: Bytes, now: int)
    ensures AbsRow(Delivery(messageId, payload, Pending, 0, now, None, None), History(0, [], [])) == LQ.Row(LQ.Ready, 0, now, 0, [], [])
  {
  }

  lemma ClaimRowsAbs(s: State, step: Step)
    requires s.history.Keys == s.deliveries.Keys && Enabled(s, step) && step.Claim?
    ensures Next(s, step).history.Keys == Next(s, step).deliveries.Keys && LQ.Enabled(Abs(s), AbsStep(s, step)[0])
    ensures Abs(Next(s, step)).rows == LQ.Next(Abs(s), AbsStep(s, step)[0]).rows
  {
    assert Abs(s).holders[step.w].leases == [];
    forall k | k in step.picks
      ensures k in Abs(s).rows && LQ.Claimable(Abs(s).rows[k], s.now)
    {
    }
  }

  lemma ClaimStep(s: State, step: Step)
    requires Inv(s) && Enabled(s, step) && step.Claim?
    ensures Simulates(s, step)
  {
    ClaimRowsAbs(s, step);
    ClaimLeasesAbs(s, step);
    hide LQ.Inv, IsClaim, LQ.GrantRow, AbsRow, ClaimRow, JobsOf, LQ.LeasesOf;
    var t := Next(s, step);
    var u := LQ.Next(Abs(s), AbsStep(s, step)[0]);
    forall w | 0 <= w < |s.dispatchers|
      ensures Abs(t).holders[w] == u.holders[w]
    {
    }
    assert Abs(t).holders == u.holders;
  }

  lemma ClaimLeasesAbs(s: State, step: Step)
    requires s.history.Keys == s.deliveries.Keys && Enabled(s, step) && step.Claim?
    ensures var rows := ClaimRows(s.deliveries, step.picks, s.now, LOCK);
            var granted := map k | k in Abs(s).rows :: if k in step.picks then LQ.GrantRow(Abs(s).rows[k], step.w, s.now) else Abs(s).rows[k];
            AbsLeases(JobsOf(rows, step.picks)) == LQ.LeasesOf(granted, step.picks)
    ensures AbsLeases([]) == []
  {
  }

  lemma AnswerStep(s: State, step: Step)
    requires Inv(s) && Enabled(s, step) && step.Answer?
    ensures Simulates(s, step)
  {
    hide LQ.Inv;
    var t := Next(s, step);
    var job := s.dispatchers[step.w].batch[0];
    assert Abs(s).holders[step.w].leases[0] == LQ.Lease(job.key, job.attempts);
    var u := LQ.Next(Abs(s), AbsStep(s, step)[0]);
    assert Abs(t).rows == u.rows;
    assert Abs(t).holders == u.holders;
  }

  lemma HolderHasRow(s: State, w: nat)
    requires Inv(s) && Active(s, w)
    ensures var job := s.dispatchers[w].batch[0];
            && job.key in s.deliveries && s.deliveries[job.key].status == Delivering
            && s.deliveries[job.key].attempts == job.attempts
  {
    var job := s.dispatchers[w].batch[0];
    assert Abs(s).holders[w].leases[0] == LQ.Lease(job.key, job.attempts);
    assert LQ.HolderOk(Abs(s), w) && LQ.LeaseOk(Abs(s), w, 0);
  }

  lemma MarkRowAbs(d: Delivery, h: History, outcome: Outcome, reason: Bytes, clock: int)
    ensures AbsRow(MarkRow(d, MarkFor(outcome, reason, d.attempts, clock)), h) ==
            LQ.SettleRow(AbsRow(d, h), d.attempts, VerdictOf(outcome), clock)
  {
    hide Encode, Delay, Truncate;
  }

  lemma SettleStep(s: State, step: Step)
    requires Inv(s) && Enabled(s, step) && step.Settle?
    ensures Simulates(s, step)
  {
    hide LQ.Inv, LQ.SettleRow, AbsRow, CanMark, MarkFor, MarkRows;
    HolderHasRow(s, step.w);
    SettleRowsAbs(s, step);
    SettleHoldersAbs(s, step);
  }

  lemma SettleHoldersAbs(s: State, step: Step)
    requires s.history.Keys == s.deliveries.Keys && Enabled(s, step) && step.Settle?
    requires Next(s, step).history.Keys == Next(s, step).deliveries.Keys && LQ.Enabled(Abs(s), AbsStep(s, step)[0])
    ensures Abs(Next(s, step)).holders == LQ.Next(Abs(s), AbsStep(s, step)[0]).holders
  {
    hide LQ.SettleRow, AbsRow, CanMark, MarkFor, MarkRows;
    var batch := s.dispatchers[step.w].batch;
    assert AbsLeases(batch[1..]) == AbsLeases(batch)[1..];
  }

  lemma SettleRowsAbs(s: State, step: Step)
    requires s.history.Keys == s.deliveries.Keys && Enabled(s, step) && step.Settle?
    requires var job := s.dispatchers[step.w].batch[0];
             job.key in s.deliveries && s.deliveries[job.key].attempts == job.attempts
    ensures Next(s, step).history.Keys == Next(s, step).deliveries.Keys && LQ.Enabled(Abs(s), AbsStep(s, step)[0])
    ensures Abs(Next(s, step)).rows == LQ.Next(Abs(s), AbsStep(s, step)[0]).rows
  {
    hide LQ.SettleRow, AbsRow, Encode, Delay, Truncate, MarkFor, MarkRow;
    var batch, reply := s.dispatchers[step.w].batch, s.dispatchers[step.w].answer.value;
    var d := s.deliveries[batch[0].key];
    assert Abs(s).holders[step.w].leases[0] == LQ.Lease(batch[0].key, d.attempts);
    MarkRowAbs(d, s.history[batch[0].key], reply.outcome, reply.reason, step.clock);
  }

  lemma StepSimulates(s: State, step: Step)
    requires Inv(s) && Enabled(s, step)
    ensures Simulates(s, step) && Inv(Next(s, step))
  {
    match step {
      case Claim(_, _, _, _) => ClaimStep(s, step);
      case Answer(_, _, _) => AnswerStep(s, step);
      case Settle(_, _, _) => SettleStep(s, step);
      case _ => PlainStep(s, step);
    }
    if AbsStep(s, step) != [] {
      LQ.StepInv(Abs(s), AbsStep(s, step)[0]);
    }
  }

  ghost function AbsRun(s: State, steps: seq<Step>): seq<LQ.Step<Key>>
    requires Valid(s, steps)
    decreases |steps|
  {
    if steps == [] then []
    else
      var before := steps[..|steps| - 1];
      AbsRun(s, before) + AbsStep(Exec(s, before), steps[|steps| - 1])
  }

  lemma InitInv(s: State)
    requires Init(s)
    ensures Inv(s)
  {
    forall w | 0 <= w < |s.dispatchers|
      ensures Abs(s).holders[w] == LQ.Released()
    {
      assert AbsLeases([]) == [];
    }
    LQ.InitInv(Abs(s));
  }

  // Every run of the dispatchers is a run of the lease queue.
  lemma {:induction false} RunRefines(s: State, steps: seq<Step>)
    requires Inv(s) && Valid(s, steps)
    ensures Inv(Exec(s, steps))
    ensures LQ.Valid(Abs(s), AbsRun(s, steps)) && LQ.Exec(Abs(s), AbsRun(s, steps)) == Abs(Exec(s, steps))
    decreases |steps|
  {
    hide Inv, LQ.Next, Next, Enabled;
    if steps != [] {
      var before, last := steps[..|steps| - 1], steps[|steps| - 1];
      RunRefines(s, before);
      StepSimulates(Exec(s, before), last);
      if AbsStep(Exec(s, before), last) == [] {
        assert AbsRun(s, steps) == AbsRun(s, before);
      } else {
        assert AbsRun(s, steps)[..|AbsRun(s, steps)| - 1] == AbsRun(s, before);
      }
    }
  }

  // ---- What holds in every run ----

  // No delivery is in two hands, and the row a dispatcher writes is the one it claimed.
  lemma OneHolder(s: State, steps: seq<Step>, v: nat, i: nat, w: nat, j: nat)
    requires Init(s) && Valid(s, steps)
    requires var t := Exec(s, steps);
             && v < |t.dispatchers| && i < |t.dispatchers[v].batch| && w < |t.dispatchers| && j < |t.dispatchers[w].batch|
             && t.dispatchers[v].batch[i].key == t.dispatchers[w].batch[j].key
    ensures v == w && i == j
    ensures var t := Exec(s, steps);
            var job := t.dispatchers[w].batch[j];
            job.key in t.deliveries && t.deliveries[job.key].status == Delivering && t.deliveries[job.key].attempts == job.attempts
  {
    InitInv(s);
    RunRefines(s, steps);
    var t := Exec(s, steps);
    assert Abs(t).holders[v].leases[i].key == t.dispatchers[v].batch[i].key;
    assert Abs(t).holders[w].leases[j].key == t.dispatchers[w].batch[j].key;
    LQ.LeasesDisjoint(Abs(t), v, i, w, j);
    assert LQ.HolderOk(Abs(t), w) && LQ.LeaseOk(Abs(t), w, j);
  }

  // At most eight claims, one verdict each, none after an accepted or dropped one, and the
  // claim after k others at least 2^k - 1 minutes after the first.
  lemma AtMostOneDelivery(s: State, steps: seq<Step>, key: Key)
    requires Init(s) && Valid(s, steps) && key in Exec(s, steps).deliveries
    ensures key in Exec(s, steps).history
    ensures var d, h := Exec(s, steps).deliveries[key], Exec(s, steps).history[key];
            && |h.grants| == d.attempts <= MAX_TRIES
            && (d.status == Pending ==> d.attempts < MAX_TRIES)
            && (forall i, j :: 0 <= i < j < |h.rulings| ==> h.rulings[i].attempt != h.rulings[j].attempt)
            && (forall i :: 0 <= i < |h.rulings| && h.rulings[i].verdict != LQ.TryLater ==> i == |h.rulings| - 1)
            && (d.status == WebhookQueue.Delivered ==> h.rulings != [] && h.rulings[|h.rulings| - 1].verdict == LQ.Accepted)
            && (forall k :: 0 <= k < |h.grants| ==> h.grants[k] >= h.grants[0] + (Pow2(k) - 1) * MINUTE)
  {
    InitInv(s);
    RunRefines(s, steps);
    hide *;
    InvRow(Exec(s, steps), key);
    RowMeaning(Exec(s, steps).deliveries[key], Exec(s, steps).history[key], Exec(s, steps).now);
  }

  lemma InvRow(s: State, key: Key)
    requires Inv(s) && key in s.deliveries
    ensures key in s.history && LQ.RowOk(AbsRow(s.deliveries[key], s.history[key]), s.now)
  {
    assert LQ.RowOk(Abs(s).rows[key], s.now);
  }

  lemma RowMeaning(d: Delivery, h: History, now: int)
    requires LQ.RowOk(AbsRow(d, h), now)
    ensures |h.grants| == d.attempts <= MAX_TRIES
    ensures d.status == Pending ==> d.attempts < MAX_TRIES
    ensures forall i, j :: 0 <= i < j < |h.rulings| ==> h.rulings[i].attempt != h.rulings[j].attempt
    ensures forall i :: 0 <= i < |h.rulings| && h.rulings[i].verdict != LQ.TryLater ==> i == |h.rulings| - 1
    ensures d.status == WebhookQueue.Delivered ==> h.rulings != [] && h.rulings[|h.rulings| - 1].verdict == LQ.Accepted
    ensures forall k :: 0 <= k < |h.grants| ==> h.grants[k] >= h.grants[0] + (Pow2(k) - 1) * MINUTE
  {
    LQ.HistorySafe(AbsRow(d, h), now);
    forall k | 0 <= k < |h.grants|
      ensures h.grants[k] >= h.grants[0] + (Pow2(k) - 1) * MINUTE
    {
      LQ.ClaimsSpread(AbsRow(d, h), now, k + 1);
    }
  }

  // A delivery claimed by a dispatcher that is gone is never attempted again, and one that
  // succeeded or failed stays so.
  lemma SettledForever(s: State, steps: seq<Step>, key: Key)
    requires Inv(s) && Valid(s, steps) && key in s.deliveries
    requires s.deliveries[key].status in {WebhookQueue.Delivered, Failed} || LQ.Stranded(Abs(s), key)
    ensures var t := Exec(s, steps);
            key in t.deliveries && t.deliveries[key].status == s.deliveries[key].status && t.deliveries[key].attempts == s.deliveries[key].attempts
  {
    RunRefines(s, steps);
    if LQ.Stranded(Abs(s), key) {
      LQ.StrandedForever(Abs(s), AbsRun(s, steps), key);
    } else {
      LQ.FinishedForever(Abs(s), AbsRun(s, steps), key);
    }
    hide *;
    SameRow(s, Exec(s, steps), key);
  }

  lemma SameRow(s: State, t: State, key: Key)
    requires Inv(s) && Inv(t) && key in s.deliveries && key in Abs(t).rows && Abs(t).rows[key] == Abs(s).rows[key]
    ensures key in t.deliveries
    ensures t.deliveries[key].status == s.deliveries[key].status && t.deliveries[key].attempts == s.deliveries[key].attempts
  {
    hide LQ.Inv;
    assert Abs(t).rows[key].status == Abs(s).rows[key].status;
  }

  // A delivery being attempted that no dispatcher has.
  ghost predicate Stranded(s: State, key: Key) {
    && key in s.deliveries && s.deliveries[key].status == Delivering
    && forall w: nat, i: nat :: w < |s.dispatchers| && i < |s.dispatchers[w].batch| ==> s.dispatchers[w].batch[i].key != key
  }

  // Its dispatcher crashes, or cannot write its outcome, or a claim of it is committed and
  // the batch never reaches its dispatcher.
  ghost predicate Loses(s: State, step: Step, key: Key)
    requires Enabled(s, step)
  {
    match step
    case Crash(w) => exists i :: 0 <= i < |s.dispatchers[w].batch| && s.dispatchers[w].batch[i].key == key
    case Settle(w, _, write) => write.Refused? && s.dispatchers[w].batch[0].key == key
    case Claim(_, picks, _, received) => !received && key in picks
    case _ => false
  }

  lemma StrandedAbs(s: State, key: Key)
    requires s.history.Keys == s.deliveries.Keys
    ensures Stranded(s, key) <==> LQ.Stranded(Abs(s), key)
  {
    if LQ.Held(Abs(s), key) {
      var w, i :| 0 <= w < |Abs(s).holders| && 0 <= i < |Abs(s).holders[w].leases| && Abs(s).holders[w].leases[i].key == key;
      assert s.dispatchers[w].batch[i].key == key;
    }
    if w: nat, i: nat :| w < |s.dispatchers| && i < |s.dispatchers[w].batch| && s.dispatchers[w].batch[i].key == key {
      assert Abs(s).holders[w].leases[i].key == key;
      assert LQ.Held(Abs(s), key);
    }
  }

  lemma LosesAbs(s: State, step: Step, key: Key)
    requires s.history.Keys == s.deliveries.Keys && Enabled(s, step)
    requires AbsStep(s, step) != [] ==> LQ.Enabled(Abs(s), AbsStep(s, step)[0])
    ensures Loses(s, step, key) <==> AbsStep(s, step) != [] && LQ.Loses(Abs(s), AbsStep(s, step)[0], key)
  {
    hide IsClaim, CanMark, MarkFor, AbsRow;
    match step {
      case Crash(w) =>
        if i :| 0 <= i < |s.dispatchers[w].batch| && s.dispatchers[w].batch[i].key == key {
          assert Abs(s).holders[w].leases[i].key == key;
        }
        if i :| 0 <= i < |Abs(s).holders[w].leases| && Abs(s).holders[w].leases[i].key == key {
          assert s.dispatchers[w].batch[i].key == key;
        }
      case Settle(w, _, _) => assert Abs(s).holders[w].leases[0].key == s.dispatchers[w].batch[0].key;
      case _ =>
    }
  }

  // A delivery is stranded after a step exactly if it was before or the step loses it.
  lemma LossStrands(s: State, step: Step, key: Key)
    requires Inv(s) && Enabled(s, step)
    ensures Stranded(Next(s, step), key) <==> Stranded(s, key) || Loses(s, step, key)
  {
    StepSimulates(s, step);
    hide LQ.Inv, LQ.Next, Next, Enabled, Stranded, Loses, LQ.Stranded, LQ.Loses;
    LosesAbs(s, step, key);
    StrandedAbs(s, key);
    StrandedAbs(Next(s, step), key);
    if AbsStep(s, step) != [] {
      LQ.StrandedStep(Abs(s), AbsStep(s, step)[0], key);
    }
  }

  ghost predicate LosesAt(s: State, steps: seq<Step>, i: nat, key: Key)
    requires Valid(s, steps) && i < |steps|
  {
    ValidPrefix(s, steps, i);
    ValidPrefix(s, steps, i + 1);
    assert steps[..i + 1][..i] == steps[..i];
    Loses(Exec(s, steps[..i]), steps[i], key)
  }

  lemma {:induction false} ValidPrefix(s: State, steps: seq<Step>, i: nat)
    requires Valid(s, steps) && i <= |steps|
    ensures Valid(s, steps[..i])
    decreases |steps|
  {
    if i == |steps| {
      assert steps[..i] == steps;
    } else {
      ValidPrefix(s, steps[..|steps| - 1], i);
      assert steps[..|steps| - 1][..i] == steps[..i];
    }
  }

  lemma LosesAtSplit(s: State, steps: seq<Step>, key: Key)
    requires Valid(s, steps) && steps != []
    ensures var before, n := steps[..|steps| - 1], |steps| - 1;
            && (LosesAt(s, steps, n, key) <==> Loses(Exec(s, before), steps[n], key))
            && forall i: nat :: i < n ==> (LosesAt(s, steps, i, key) <==> LosesAt(s, before, i, key))
  {
    hide Loses, Enabled, Next;
    var before, n := steps[..|steps| - 1], |steps| - 1;
    forall i: nat | i < n
      ensures LosesAt(s, steps, i, key) <==> LosesAt(s, before, i, key)
    {
      assert before[..i] == steps[..i];
    }
  }

  lemma RunKeeps(s: State, steps: seq<Step>)
    requires Inv(s) && Valid(s, steps)
    ensures Inv(Exec(s, steps))
  {
    RunRefines(s, steps);
  }

  // Over whole runs: a delivery is stranded exactly if it was to begin with or some step of
  // the run lost it.
  lemma {:induction false} StrandedExactly(s: State, steps: seq<Step>, key: Key)
    requires Inv(s) && Valid(s, steps)
    ensures Stranded(Exec(s, steps), key) <==> Stranded(s, key) || exists i: nat :: i < |steps| && LosesAt(s, steps, i, key)
    decreases |steps|
  {
    if steps != [] {
      var before, n := steps[..|steps| - 1], |steps| - 1;
      StrandedExactly(s, before, key);
      RunKeeps(s, before);
      LossStrands(Exec(s, before), steps[n], key);
      hide Inv, Stranded, Enabled, Next, LosesAt;
      LosesAtSplit(s, steps, key);
    }
  }

  // The payload of a delivery is fixed when it is queued: nothing later changes it, a
  // repeated event least of all.
  lemma {:induction false} PayloadFrozen(s: State, steps: seq<Step>, key: Key)
    requires Valid(s, steps) && key in s.deliveries
    ensures var t := Exec(s, steps);
            key in t.deliveries && t.deliveries[key].payload == s.deliveries[key].payload && t.deliveries[key].messageId == s.deliveries[key].messageId
    decreases |steps|
  {
    if steps != [] {
      PayloadFrozen(s, steps[..|steps| - 1], key);
      PayloadKept(Exec(s, steps[..|steps| - 1]), steps[|steps| - 1], key);
    }
  }

  lemma PayloadKept(s: State, step: Step, key: Key)
    requires Enabled(s, step) && key in s.deliveries
    ensures var t := Next(s, step);
            key in t.deliveries && t.deliveries[key].payload == s.deliveries[key].payload && t.deliveries[key].messageId == s.deliveries[key].messageId
  {
    hide Encode, Delay, Truncate;
  }
}
