// internal/worker/worker.go against internal/store/queue.go: any number of delivery
// workers interleaving their statements on one database.
//
// Each statement, each answer of the sending engine and each lapse of time is one step. A
// worker may crash between any two of its steps, a statement may fail, and it may be done
// and report an error all the same. The steps use the statement functions of MessageQueue,
// so the Store methods and this machine write the same rows.
module DeliveryProtocol {
  import opened Prelude
  import opened Utf8
  import opened Backoff
  import opened MessageQueue
  import JsonString
  import LQ = LeaseQueue

  const BATCH := 10
  const LOCK := 5 * MINUTE
  const MAX_ATTEMPTS := 8

  // The engine's answer to one handoff; Unsigned when signing failed and nothing was sent.
  datatype Reply = Sent | Temporary | Permanent | Unsigned

  datatype Job = Job(id: Id, attempts: nat)

  // Where the worker is with the first message of its batch; at is when the engine answered.
  datatype Stage =
    | Ready
    | Answered(reply: Reply, reason: Bytes, at: int)
    | Marked(kind: string, detail: Bytes, at: int)
    | Recorded(kind: string, detail: Bytes)

  datatype Phase = Idle | Checked | Working(batch: seq<Job>, stage: Stage)

  // One entry of the history of recorded events and of published webhooks.
  datatype Note = Note(id: Id, kind: string, attempt: nat)

  datatype History = History(owner: nat, grants: seq<int>, rulings: seq<LQ.Ruling>)

  // history, recorded and published are history: no guard and no row depends on them.
  // recorded has one entry per event, in the same order.
  datatype State = State(now: int, messages: map<Id, Message>, events: seq<Event>, workers: seq<Phase>,
                         history: map<Id, History>, recorded: seq<Note>, published: seq<Note>)

  datatype Step =
    | Pass(d: nat)
    | Enqueue(id: Id, createdAt: int, scheduledAt: Option<int>, recipients: Option<seq<string>>)
    | Check(w: nat)
    | GiveUp(w: nat)
    | Claim(w: nat, picks: seq<Id>, busy: set<Id>, received: bool)
    | Answer(w: nat, reply: Reply, reason: Bytes)
    | Mark(w: nat, clock: int, write: Write)
    | Record(w: nat, write: Write)
    | Publish(w: nat, done: bool)
    | Crash(w: nat)

  const GAVE_UP := Encode("gave up after repeated temporary failures: ")
  const UNSIGNED := Encode("could not sign message: ")

  // deliver's decision table.
  function MarkFor(reply: Reply, reason: Bytes, attempts: nat, clock: int): Mark {
    match reply
    case Sent => MarkSent
    case Temporary =>
      if attempts >= MAX_ATTEMPTS then MarkFailed(GAVE_UP + reason)
      else MarkDeferred(clock + Delay(attempts), reason)
    case Permanent => MarkFailed(reason)
    case Unsigned => MarkFailed(UNSIGNED + reason)
  }

  function Finished(batch: seq<Job>): Phase
    requires batch != []
  {
    if |batch| == 1 then Idle else Working(batch[1..], Ready)
  }

  predicate Active(s: State, w: nat) {
    w < |s.workers| && s.workers[w].Working? && s.workers[w].batch != []
  }

  // The ceiling of zero is no ceiling.
  predicate BelowCeiling(s: State, ceiling: int) {
    ceiling > 0 ==> SentAfter(s.events, s.now - HOUR) < ceiling
  }

  ghost predicate Enabled(s: State, step: Step, ceiling: int) {
    match step
    case Pass(_) => true
    case Enqueue(id, createdAt, _, _) => id !in s.messages && createdAt <= s.now
    case Check(w) => w < |s.workers| && s.workers[w] == Idle && BelowCeiling(s, ceiling)
    case GiveUp(w) => w < |s.workers| && s.workers[w] == Checked
    case Claim(w, picks, busy, _) =>
      && w < |s.workers| && s.workers[w] == Checked
      && IsClaim(s.messages, s.now, BATCH, busy, picks)
    case Answer(w, _, _) => Active(s, w) && s.workers[w].stage == Ready
    case Mark(w, clock, write) =>
      && Active(s, w) && s.workers[w].stage.Answered?
      && s.workers[w].stage.at <= clock <= s.now
      && (!CanMark(MarkFor(s.workers[w].stage.reply, s.workers[w].stage.reason, s.workers[w].batch[0].attempts, clock)) ==> write.Refused?)
    case Record(w, write) =>
      && Active(s, w) && s.workers[w].stage.Marked?
      && (s.workers[w].batch[0].id !in s.messages ==> write.Refused?)
    case Publish(w, _) => Active(s, w) && s.workers[w].stage.Recorded?
    case Crash(w) => w < |s.workers|
  }

  function At(s: State, w: nat, phase: Phase): State
    requires w < |s.workers|
  {
    s.(workers := s.workers[w := phase])
  }

  function VerdictOf(reply: Reply): LQ.Verdict {
    match reply
    case Sent => LQ.Accepted
    case Temporary => LQ.TryLater
    case Permanent => LQ.Rejected
    case Unsigned => LQ.Rejected
  }

  function JobsOf(messages: map<Id, Message>, picks: seq<Id>): (jobs: seq<Job>)
    requires forall id :: id in picks ==> id in messages
  {
    seq(|picks|, i requires 0 <= i < |picks| => Job(picks[i], messages[picks[i]].attempts))
  }

  function Granted(h: History, w: nat, now: int): History {
    h.(owner := w, grants := h.grants + [now])
  }

  function GrantedTo(history: map<Id, History>, picks: seq<Id>, w: nat, now: int): map<Id, History> {
    map id | id in history :: if id in picks then Granted(history[id], w, now) else history[id]
  }

  function Judged(history: map<Id, History>, job: Job, reply: Reply): map<Id, History> {
    if job.id !in history then history
    else history[job.id := history[job.id].(rulings := history[job.id].rulings + [LQ.Ruling(job.attempts, VerdictOf(reply))])]
  }

  function NoteOf(s: State, w: nat): Note
    requires Active(s, w) && (s.workers[w].stage.Marked? || s.workers[w].stage.Recorded?)
  {
    Note(s.workers[w].batch[0].id, s.workers[w].stage.kind, s.workers[w].batch[0].attempts)
  }

  function Next(s: State, step: Step, ghost ceiling: int): State
    requires Enabled(s, step, ceiling)
  {
    match step
    case Pass(d) => s.(now := s.now + d)
    case Enqueue(id, createdAt, scheduledAt, recipients) =>
      s.(messages := s.messages[id := Message(Queued, 0, scheduledAt, None, None, createdAt, recipients)],
         history := s.history[id := History(0, [], [])])
    case Check(w) => At(s, w, Checked)
    case GiveUp(w) => At(s, w, Idle)
    case Claim(w, picks, _, received) =>
      var messages := ClaimRows(s.messages, picks, s.now, LOCK);
      var history := GrantedTo(s.history, picks, w, s.now);
      var phase := if received && picks != [] then Working(JobsOf(messages, picks), Ready) else Idle;
      At(s, w, phase).(messages := messages, history := history)
    case Answer(w, reply, reason) =>
      At(s, w, Working(s.workers[w].batch, Answered(reply, reason, s.now)))
        .(history := Judged(s.history, s.workers[w].batch[0], reply))
    case Mark(w, clock, write) =>
      var batch, stage := s.workers[w].batch, s.workers[w].stage;
      var mark := MarkFor(stage.reply, stage.reason, batch[0].attempts, clock);
      var phase := if write.Written? then Working(batch, Marked(KindOf(mark), DetailOf(mark), stage.at)) else Finished(batch);
      At(s, w, phase).(messages := if write.Refused? then s.messages else MarkRows(s.messages, batch[0].id, mark))
    case Record(w, write) =>
      var batch, stage := s.workers[w].batch, s.workers[w].stage;
      var event := Event(batch[0].id, stage.kind, JsonString.EventDetail(stage.detail), s.now);
      var phase := if write.Written? then Working(batch, Recorded(stage.kind, stage.detail)) else Finished(batch);
      At(s, w, phase).(events := if write.Refused? then s.events else s.events + [event],
                       recorded := if write.Refused? then s.recorded else s.recorded + [NoteOf(s, w)])
    case Publish(w, done) =>
      At(s, w, Finished(s.workers[w].batch))
        .(published := if done then s.published + [NoteOf(s, w)] else s.published)
    case Crash(w) => At(s, w, Idle)
  }

  ghost predicate Valid(s: State, steps: seq<Step>, ceiling: int)
    decreases |steps|, 0
  {
    steps == [] ||
    (Valid(s, steps[..|steps| - 1], ceiling) && Enabled(Exec(s, steps[..|steps| - 1], ceiling), steps[|steps| - 1], ceiling))
  }

  ghost function Exec(s: State, steps: seq<Step>, ceiling: int): State
    requires Valid(s, steps, ceiling)
    decreases |steps|, 1
  {
    if steps == [] then s
    else Next(Exec(s, steps[..|steps| - 1], ceiling), steps[|steps| - 1], ceiling)
  }

  lemma {:induction false} ValidPrefix(s: State, steps: seq<Step>, i: nat, ceiling: int)
    requires Valid(s, steps, ceiling) && i <= |steps|
    ensures Valid(s, steps[..i], ceiling)
    decreases |steps|
  {
    if i == |steps| {
      assert steps[..i] == steps;
    } else {
      ValidPrefix(s, steps[..|steps| - 1], i, ceiling);
      assert steps[..|steps| - 1][..i] == steps[..i];
    }
  }

  // The trace is a run of the protocol from s to t.
  ghost predicate Runs(s: State, trace: seq<Step>, t: State, ceiling: int) {
    Valid(s, trace, ceiling) && Exec(s, trace, ceiling) == t
  }

  lemma RunsNone(s: State, ceiling: int)
    ensures Runs(s, [], s, ceiling)
  {
  }

  lemma RunsMore(s: State, trace: seq<Step>, t: State, step: Step, ceiling: int)
    requires Runs(s, trace, t, ceiling) && Enabled(t, step, ceiling)
    ensures Runs(s, trace + [step], Next(t, step, ceiling), ceiling)
  {
    assert (trace + [step])[..|trace|] == trace;
  }

  lemma {:induction false} RunsOn(s: State, trace: seq<Step>, t: State, more: seq<Step>, u: State, ceiling: int)
    requires Runs(s, trace, t, ceiling) && Runs(t, more, u, ceiling)
    ensures Runs(s, trace + more, u, ceiling)
    decreases |more|
  {
    hide Next, Enabled;
    if more == [] {
      assert trace + more == trace;
    } else {
      var before, last := more[..|more| - 1], more[|more| - 1];
      RunsOn(s, trace, t, before, Exec(t, before, ceiling), ceiling);
      RunsMore(s, trace + before, Exec(t, before, ceiling), last, ceiling);
      assert trace + before + [last] == trace + more;
    }
  }

  ghost predicate Init(s: State) {
    && s.messages == map[] && s.history == map[] && s.events == [] && s.recorded == [] && s.published == []
    && forall w :: 0 <= w < |s.workers| ==> s.workers[w] == Idle
  }

  // ---- The rows as leases ----

  function AbsStatus(status: Status): LQ.Status {
    match status
    case Queued => LQ.Ready
    case Deferred => LQ.Ready
    case Sending => LQ.Leased
    case Sent => LQ.Done
    case Delivered => LQ.Done
    case _ => LQ.Dead
  }

  function AbsRow(m: Message, h: History): LQ.Row {
    LQ.Row(AbsStatus(m.status), m.attempts,
           if m.scheduledAt.Some? then m.scheduledAt.value else m.createdAt, h.owner, h.grants, h.rulings)
  }

  function AbsLeases(batch: seq<Job>): seq<LQ.Lease<Id>> {
    seq(|batch|, i requires 0 <= i < |batch| => LQ.Lease(batch[i].id, batch[i].attempts))
  }

  // A marked message is no longer held, though its event and webhook are still to come.
  function AbsHolder(phase: Phase): LQ.Holder<Id> {
    if !phase.Working? || phase.batch == [] then LQ.Released()
    else if phase.stage.Ready? then LQ.Holder(AbsLeases(phase.batch), None)
    else if phase.stage.Answered? then
      LQ.Holder(AbsLeases(phase.batch), Some(LQ.Answer(VerdictOf(phase.stage.reply), phase.stage.at)))
    else LQ.Holder(AbsLeases(phase.batch[1..]), None)
  }

  ghost function Abs(s: State): LQ.State<Id>
    requires s.history.Keys == s.messages.Keys
  {
    LQ.State(s.now, map id | id in s.messages :: AbsRow(s.messages[id], s.history[id]),
             seq(|s.workers|, w requires 0 <= w < |s.workers| => AbsHolder(s.workers[w])))
  }

  // What the tables hold beyond the lease protocol. The lock column is set exactly while a
  // row is 'sending', so the lock test of the claim never decides anything.
  ghost predicate RowShape(m: Message, now: int) {
    && m.status in {Queued, Sending, Status.Sent, Deferred, Failed}
    && (m.lockedUntil.Some? <==> m.status == Sending)
    && (m.status == Queued ==> m.attempts == 0)
    && m.createdAt <= now
  }

  ghost predicate Shape(s: State) {
    && s.history.Keys == s.messages.Keys
    && (forall id :: id in s.messages ==> RowShape(s.messages[id], s.now))
    && (forall w :: 0 <= w < |s.workers| && s.workers[w].Working? ==> 1 <= |s.workers[w].batch| <= BATCH)
  }

  ghost predicate Inv(s: State) {
    Shape(s) && LQ.Inv(Abs(s))
  }

  // The lease step a protocol step amounts to, if any.
  function AbsStep(step: Step): seq<LQ.Step<Id>> {
    match step
    case Pass(d) => [LQ.Pass(d)]
    case Enqueue(id, createdAt, scheduledAt, _) =>
      [LQ.Insert({id}, if scheduledAt.Some? then scheduledAt.value else createdAt)]
    case Claim(w, picks, _, received) => [LQ.Grant(w, picks, received)]
    case Answer(w, reply, _) => [LQ.Rule(w, VerdictOf(reply))]
    case Mark(w, clock, write) => if write.Refused? then [LQ.Drop(w)] else [LQ.Settle(w, clock)]
    case Crash(w) => [LQ.Crash(w)]
    case _ => []
  }

  // One protocol step is one lease step or none.
  ghost predicate Simulates(s: State, step: Step, ceiling: int)
    requires Inv(s) && Enabled(s, step, ceiling)
  {
    var t := Next(s, step, ceiling);
    && Shape(t)
    && if AbsStep(step) == [] then Abs(t) == Abs(s)
       else LQ.Enabled(Abs(s), AbsStep(step)[0]) && Abs(t) == LQ.Next(Abs(s), AbsStep(step)[0])
  }

  lemma QuietStep(s: State, step: Step, ceiling: int)
    requires Inv(s) && Enabled(s, step, ceiling)
    requires AbsStep(step) == []
    ensures Simulates(s, step, ceiling)
  {
    hide LQ.Inv, AbsRow, CanMark, MarkFor, RowShape, IsClaim;
    var t := Next(s, step, ceiling);
    forall w | 0 <= w < |s.workers|
      ensures AbsHolder(t.workers[w]) == AbsHolder(s.workers[w])
    {
      if Active(s, w) {
        assert |s.workers[w].batch| == 1 ==> AbsLeases(s.workers[w].batch[1..]) == [];
      }
    }
    assert Abs(t).rows == Abs(s).rows;
    assert Abs(t).holders == Abs(s).holders;
  }

  lemma PlainStep(s: State, step: Step, ceiling: int)
    requires Inv(s) && Enabled(s, step, ceiling)
    requires step.Pass? || step.Enqueue? || step.Crash?
    ensures Simulates(s, step, ceiling)
  {
    hide LQ.Inv, Encode;
    var t, u := Next(s, step, ceiling), LQ.Next(Abs(s), AbsStep(step)[0]);
    if step.Enqueue? {
      EnqueueRowsAbs(s, step, ceiling);
    } else {
      assert Abs(t).rows == u.rows;
    }
    assert Abs(t).holders == u.holders;
  }

  lemma EnqueueRowsAbs(s: State, step: Step, ceiling: int)
    requires Shape(s) && Enabled(s, step, ceiling) && step.Enqueue?
    ensures Shape(Next(s, step, ceiling)) && LQ.Enabled(Abs(s), AbsStep(step)[0])
    ensures Abs(Next(s, step, ceiling)).rows == LQ.Next(Abs(s), AbsStep(step)[0]).rows
  {
    hide AbsHolder, IsClaim, CanMark, MarkFor;
  }

  lemma ClaimRowAbs(m: Message, h: History, w: nat, now: int)
    requires m.status in {Queued, Deferred} && (m.status == Queued ==> m.attempts == 0)
    ensures AbsRow(ClaimRow(m, now, LOCK), Granted(h, w, now)) == LQ.GrantRow(AbsRow(m, h), w, now)
  {
  }

  lemma ClaimEnabled(s: State, step: Step, ceiling: int)
    requires Inv(s) && Enabled(s, step, ceiling) && step.Claim?
    ensures LQ.Enabled(Abs(s), AbsStep(step)[0])
  {
    hide LQ.Inv;
    forall id | id in step.picks
      ensures id in Abs(s).rows && LQ.Claimable(Abs(s).rows[id], s.now)
    {
      assert RowShape(s.messages[id], s.now);
    }
  }

  lemma ClaimShape(s: State, step: Step, ceiling: int)
    requires Shape(s) && Enabled(s, step, ceiling) && step.Claim?
    ensures Shape(Next(s, step, ceiling))
  {
  }

  lemma ClaimRowsAbs(s: State, step: Step, ceiling: int)
    requires Shape(s) && Enabled(s, step, ceiling) && step.Claim?
    requires Shape(Next(s, step, ceiling)) && LQ.Enabled(Abs(s), AbsStep(step)[0])
    ensures Abs(Next(s, step, ceiling)).rows == LQ.Next(Abs(s), AbsStep(step)[0]).rows
  {
    hide AbsRow, ClaimRow, Granted, LQ.GrantRow, LQ.Claimable, AbsHolder, CanMark, MarkFor, JobsOf, LQ.LeasesOf;
    forall id | id in step.picks
      ensures AbsRow(ClaimRow(s.messages[id], s.now, LOCK), Granted(s.history[id], step.w, s.now)) ==
              LQ.GrantRow(AbsRow(s.messages[id], s.history[id]), step.w, s.now)
    {
      assert RowShape(s.messages[id], s.now) && Due(s.messages[id], s.now);
      ClaimRowAbs(s.messages[id], s.history[id], step.w, s.now);
    }
  }

  lemma ShapeKeys(s: State)
    requires Shape(s)
    ensures s.history.Keys == s.messages.Keys
  {
  }

  lemma ClaimStep(s: State, step: Step, ceiling: int)
    requires Inv(s) && Enabled(s, step, ceiling) && step.Claim?
    ensures Simulates(s, step, ceiling)
  {
    hide LQ.Inv, Shape, IsClaim, RowShape, LQ.GrantRow, ClaimRow, CanMark, MarkFor;
    ShapeKeys(s);
    ClaimEnabled(s, step, ceiling);
    ClaimShape(s, step, ceiling);
    ShapeKeys(Next(s, step, ceiling));
    ClaimRowsAbs(s, step, ceiling);
    var t, u := Next(s, step, ceiling), LQ.Next(Abs(s), AbsStep(step)[0]);
    forall w | 0 <= w < |s.workers|
      ensures Abs(t).holders[w] == u.holders[w]
    {
      if w == step.w && step.received && step.picks != [] {
        assert AbsLeases(t.workers[w].batch) == LQ.LeasesOf(u.rows, step.picks);
      }
    }
    assert Abs(t).holders == u.holders;
  }

  lemma AnswerStep(s: State, step: Step, ceiling: int)
    requires Inv(s) && Enabled(s, step, ceiling) && step.Answer?
    ensures Simulates(s, step, ceiling)
  {
    hide LQ.Inv, Encode;
    var t := Next(s, step, ceiling);
    var job := s.workers[step.w].batch[0];
    assert Abs(s).holders[step.w].leases[0] == LQ.Lease(job.id, job.attempts);
    var u := LQ.Next(Abs(s), AbsStep(step)[0]);
    assert Abs(t).rows == u.rows;
    assert Abs(t).holders == u.holders;
  }

  // The holder of a message has the row it holds: still 'sending', same attempt.
  lemma HolderHasRow(s: State, w: nat)
    requires Inv(s) && Active(s, w) && (s.workers[w].stage.Ready? || s.workers[w].stage.Answered?)
    ensures var job := s.workers[w].batch[0];
            && job.id in s.messages && s.messages[job.id].status == Sending
            && s.messages[job.id].attempts == job.attempts
  {
    var job := s.workers[w].batch[0];
    assert Abs(s).holders[w].leases[0] == LQ.Lease(job.id, job.attempts);
    assert LQ.HolderOk(Abs(s), w) && LQ.LeaseOk(Abs(s), w, 0);
  }

  lemma MarkRowAbs(m: Message, h: History, reply: Reply, reason: Bytes, clock: int)
    requires m.status == Sending
    ensures AbsRow(MarkRow(m, MarkFor(reply, reason, m.attempts, clock)), h) ==
            LQ.SettleRow(AbsRow(m, h), m.attempts, VerdictOf(reply), clock)
  {
    hide Encode, Delay, Truncate;
  }

  lemma MarkShape(s: State, step: Step, ceiling: int)
    requires Shape(s) && Enabled(s, step, ceiling) && step.Mark?
    requires s.workers[step.w].batch[0].id in s.messages
    ensures Shape(Next(s, step, ceiling)) && Next(s, step, ceiling).messages.Keys == s.messages.Keys
  {
    hide Encode, Delay, Truncate, MarkFor;
    var t := Next(s, step, ceiling);
    assert forall id :: id in s.messages ==> RowShape(s.messages[id], s.now);
    assert s.messages[s.workers[step.w].batch[0].id].attempts >= 0;
  }

  lemma MarkRowsAbs(s: State, step: Step, ceiling: int)
    requires s.history.Keys == s.messages.Keys && Enabled(s, step, ceiling) && step.Mark?
    requires var job := s.workers[step.w].batch[0];
             && job.id in s.messages && s.messages[job.id].status == Sending && s.messages[job.id].attempts == job.attempts
    requires Next(s, step, ceiling).messages.Keys == s.messages.Keys && LQ.Enabled(Abs(s), AbsStep(step)[0])
    ensures Next(s, step, ceiling).history == s.history
    ensures Abs(Next(s, step, ceiling)).rows == LQ.Next(Abs(s), AbsStep(step)[0]).rows
  {
    hide LQ.SettleRow, AbsRow, Encode, Delay, Truncate, MarkFor, MarkRow, KindOf, DetailOf, IsClaim;
    var batch, stage := s.workers[step.w].batch, s.workers[step.w].stage;
    var m := s.messages[batch[0].id];
    assert Abs(s).holders[step.w].leases[0] == LQ.Lease(batch[0].id, m.attempts);
    MarkRowAbs(m, s.history[batch[0].id], stage.reply, stage.reason, step.clock);
  }

  lemma MarkHoldersAbs(s: State, step: Step, ceiling: int)
    requires Inv(s) && Enabled(s, step, ceiling) && step.Mark?
    requires Shape(Next(s, step, ceiling)) && LQ.Enabled(Abs(s), AbsStep(step)[0])
    ensures Abs(Next(s, step, ceiling)).holders == LQ.Next(Abs(s), AbsStep(step)[0]).holders
  {
    hide LQ.Inv, LQ.SettleRow, AbsRow, Encode, Delay, Truncate, MarkFor, RowShape, MarkRow, KindOf, DetailOf;
    var batch := s.workers[step.w].batch;
    assert AbsLeases(batch[1..]) == AbsLeases(batch)[1..];
  }

  lemma MarkStep(s: State, step: Step, ceiling: int)
    requires Inv(s) && Enabled(s, step, ceiling) && step.Mark?
    ensures Simulates(s, step, ceiling)
  {
    HolderHasRow(s, step.w);
    MarkShape(s, step, ceiling);
    assert Abs(s).holders[step.w].leases[0].key in Abs(s).rows;
    MarkRowsAbs(s, step, ceiling);
    MarkHoldersAbs(s, step, ceiling);
  }

  lemma StepSimulates(s: State, step: Step, ceiling: int)
    requires Inv(s) && Enabled(s, step, ceiling)
    ensures Simulates(s, step, ceiling)
    ensures Inv(Next(s, step, ceiling))
  {
    if AbsStep(step) == [] {
      QuietStep(s, step, ceiling);
    } else {
      match step {
        case Claim(_, _, _, _) => ClaimStep(s, step, ceiling);
        case Answer(_, _, _) => AnswerStep(s, step, ceiling);
        case Mark(_, _, _) => MarkStep(s, step, ceiling);
        case _ => PlainStep(s, step, ceiling);
      }
      LQ.StepInv(Abs(s), AbsStep(step)[0]);
    }
  }

  // ---- Whole runs ----

  ghost function AbsRun(steps: seq<Step>): seq<LQ.Step<Id>> {
    if steps == [] then [] else AbsRun(steps[..|steps| - 1]) + AbsStep(steps[|steps| - 1])
  }

  // Every run of the delivery protocol is a run of the lease queue.
  lemma {:induction false} RunRefines(s: State, steps: seq<Step>, ceiling: int)
    requires Inv(s) && Valid(s, steps, ceiling)
    ensures Inv(Exec(s, steps, ceiling))
    ensures LQ.Valid(Abs(s), AbsRun(steps)) && LQ.Exec(Abs(s), AbsRun(steps)) == Abs(Exec(s, steps, ceiling))
    decreases |steps|
  {
    if steps != [] {
      var before, last := steps[..|steps| - 1], steps[|steps| - 1];
      RunRefines(s, before, ceiling);
      StepSimulates(Exec(s, before, ceiling), last, ceiling);
      if AbsStep(last) == [] {
        assert AbsRun(steps) == AbsRun(before);
      } else {
        assert AbsRun(steps)[..|AbsRun(steps)| - 1] == AbsRun(before);
      }
    }
  }

  lemma InitInv(s: State)
    requires Init(s)
    ensures Inv(s)
  {
    LQ.InitInv(Abs(s));
  }
}
