// What holds in every run of the delivery protocol.
module DeliverySafety {
  import opened Prelude
  import opened Utf8
  import opened Backoff
  import opened MessageQueue
  import opened DeliveryProtocol
  import LQ = LeaseQueue
  import RW = RateWindow

  // Worker w has the ith message of its batch and has not written its outcome.
  predicate Holds(s: State, w: nat, i: nat) {
    && Active(s, w) && i < |s.workers[w].batch|
    && (i > 0 || s.workers[w].stage.Ready? || s.workers[w].stage.Answered?)
  }

  lemma HoldsLease(s: State, w: nat, i: nat) returns (j: nat)
    requires s.history.Keys == s.messages.Keys && Holds(s, w, i)
    ensures j < |Abs(s).holders[w].leases|
    ensures Abs(s).holders[w].leases[j] == LQ.Lease(s.workers[w].batch[i].id, s.workers[w].batch[i].attempts)
    ensures j == if s.workers[w].stage.Marked? || s.workers[w].stage.Recorded? then i - 1 else i
  {
    j := if s.workers[w].stage.Marked? || s.workers[w].stage.Recorded? then i - 1 else i;
  }

  // No message is ever held twice, by two workers or by one; a held message is 'sending'
  // with the attempt number its holder was given, so a Mark statement always finds the row
  // its worker claimed although it tests nothing but the id.
  lemma OneHolder(s: State, steps: seq<Step>, ceiling: int, v: nat, i: nat, w: nat, j: nat)
    requires Init(s) && Valid(s, steps, ceiling)
    requires var t := Exec(s, steps, ceiling);
             Holds(t, v, i) && Holds(t, w, j) && t.workers[v].batch[i].id == t.workers[w].batch[j].id
    ensures v == w && i == j
    ensures var t, job := Exec(s, steps, ceiling), Exec(s, steps, ceiling).workers[w].batch[j];
            job.id in t.messages && t.messages[job.id].status == Sending && t.messages[job.id].attempts == job.attempts
  {
    InitInv(s);
    RunRefines(s, steps, ceiling);
    hide Valid, Exec, LQ.Valid, LQ.Exec, LQ.RowOk, RowShape;
    var t := Exec(s, steps, ceiling);
    var i0 := HoldsLease(t, v, i);
    var j0 := HoldsLease(t, w, j);
    LQ.LeasesDisjoint(Abs(t), v, i0, w, j0);
    assert LQ.HolderOk(Abs(t), w) && LQ.LeaseOk(Abs(t), w, j0);
  }

  // Over a whole run a message gets at most one verdict per claim, at most one handoff the
  // engine accepts, and no verdict after one that is final. Its status is 'sent' only if
  // the engine accepted it, and it is claimed at most eight times.
  lemma AtMostOneHandoff(s: State, steps: seq<Step>, ceiling: int, id: Id)
    requires Init(s) && Valid(s, steps, ceiling) && id in Exec(s, steps, ceiling).messages
    ensures id in Exec(s, steps, ceiling).history
    ensures var m, rulings := Exec(s, steps, ceiling).messages[id], Exec(s, steps, ceiling).history[id].rulings;
            && (forall i, j :: 0 <= i < j < |rulings| ==> rulings[i].attempt != rulings[j].attempt)
            && (forall i :: 0 <= i < |rulings| && rulings[i].verdict != LQ.TryLater ==> i == |rulings| - 1)
            && (m.status == Status.Sent ==> rulings != [] && rulings[|rulings| - 1].verdict == LQ.Accepted)
            && (m.status in {Queued, Deferred} ==> m.attempts < MAX_ATTEMPTS)
            && m.attempts <= MAX_ATTEMPTS
  {
    InitInv(s);
    RunRefines(s, steps, ceiling);
    hide *;
    RowSafe(Exec(s, steps, ceiling), id);
  }

  lemma RowSafe(s: State, id: Id)
    requires Inv(s) && id in s.messages
    ensures id in s.history
    ensures var m, rulings := s.messages[id], s.history[id].rulings;
            && (forall i, j :: 0 <= i < j < |rulings| ==> rulings[i].attempt != rulings[j].attempt)
            && (forall i :: 0 <= i < |rulings| && rulings[i].verdict != LQ.TryLater ==> i == |rulings| - 1)
            && (m.status == Status.Sent ==> rulings != [] && rulings[|rulings| - 1].verdict == LQ.Accepted)
            && (m.status in {Queued, Deferred} ==> m.attempts < MAX_ATTEMPTS)
            && m.attempts <= MAX_ATTEMPTS
  {
    assert LQ.RowOk(Abs(s).rows[id], s.now);
    LQ.HistorySafe(Abs(s).rows[id], s.now);
  }

  // The kth claim of a message comes at least 2^(k-1) - 1 minutes after its first.
  lemma RetriesSpread(s: State, steps: seq<Step>, ceiling: int, id: Id, k: nat)
    requires Init(s) && Valid(s, steps, ceiling) && id in Exec(s, steps, ceiling).messages
    requires 1 <= k <= Exec(s, steps, ceiling).messages[id].attempts
    ensures id in Exec(s, steps, ceiling).history
    ensures var grants := Exec(s, steps, ceiling).history[id].grants;
            |grants| == Exec(s, steps, ceiling).messages[id].attempts && grants[k - 1] >= grants[0] + (Pow2(k - 1) - 1) * MINUTE
  {
    InitInv(s);
    RunRefines(s, steps, ceiling);
    var t := Exec(s, steps, ceiling);
    assert LQ.RowOk(Abs(t).rows[id], t.now);
    LQ.ClaimsSpread(Abs(t).rows[id], t.now, k);
  }

  // 'sent' and 'failed' are never left: from any reachable state, along any run.
  lemma FinishedForever(s: State, steps: seq<Step>, ceiling: int, id: Id)
    requires Inv(s) && Valid(s, steps, ceiling)
    requires id in s.messages && s.messages[id].status in {Status.Sent, Failed}
    ensures var t := Exec(s, steps, ceiling);
            id in t.messages && t.messages[id].status == s.messages[id].status && t.messages[id].attempts == s.messages[id].attempts
  {
    RunRefines(s, steps, ceiling);
    LQ.FinishedForever(Abs(s), AbsRun(steps), id);
    hide *;
    SameRow(s, Exec(s, steps, ceiling), id);
  }

  lemma SameRow(s: State, t: State, id: Id)
    requires Inv(s) && Inv(t) && id in s.messages && id in Abs(t).rows && Abs(t).rows[id] == Abs(s).rows[id]
    requires s.messages[id].status in {Status.Sent, Failed}
    ensures id in t.messages && t.messages[id].status == s.messages[id].status && t.messages[id].attempts == s.messages[id].attempts
  {
    hide LQ.Inv;
    assert Abs(t).rows[id].status == AbsStatus(t.messages[id].status);
    assert RowShape(t.messages[id], t.now);
  }

  // A 'sending' message that no worker holds.
  ghost predicate Stranded(s: State, id: Id) {
    && id in s.messages && s.messages[id].status == Sending
    && forall w: nat, i: nat :: Holds(s, w, i) ==> s.workers[w].batch[i].id != id
  }

  lemma StrandedAbs(s: State, id: Id)
    requires Inv(s)
    ensures Stranded(s, id) <==> LQ.Stranded(Abs(s), id)
  {
    if LQ.Held(Abs(s), id) {
      var w, i :| 0 <= w < |Abs(s).holders| && 0 <= i < |Abs(s).holders[w].leases| && Abs(s).holders[w].leases[i].key == id;
      var settled := s.workers[w].stage.Marked? || s.workers[w].stage.Recorded?;
      assert Holds(s, w, if settled then i + 1 else i);
    }
    if w: nat, i: nat :| Holds(s, w, i) && s.workers[w].batch[i].id == id {
      var j := HoldsLease(s, w, i);
      assert LQ.Held(Abs(s), id);
    }
  }

  // A message claimed by a worker that is gone stays 'sending' in every continuation, is never
  // claimed again and gets no further answer: its lock lapsing changes nothing, whatever the
  // comment at queue.go:23-27 promises.
  lemma {:induction false} StrandedForever(s: State, steps: seq<Step>, ceiling: int, id: Id)
    requires Inv(s) && Valid(s, steps, ceiling) && Stranded(s, id)
    ensures Stranded(Exec(s, steps, ceiling), id)
    ensures var t := Exec(s, steps, ceiling);
            && t.messages[id].attempts == s.messages[id].attempts
            && id in s.history && id in t.history && t.history[id] == s.history[id]
  {
    RunRefines(s, steps, ceiling);
    StrandedAbs(s, id);
    LQ.StrandedForever(Abs(s), AbsRun(steps), id);
    StrandedAbs(Exec(s, steps, ceiling), id);
    hide *;
    SameHistory(s, Exec(s, steps, ceiling), id);
  }

  lemma SameHistory(s: State, t: State, id: Id)
    requires Inv(s) && Inv(t) && id in s.messages && id in t.messages && Abs(t).rows[id] == Abs(s).rows[id]
    ensures t.messages[id].attempts == s.messages[id].attempts
    ensures id in s.history && id in t.history && t.history[id] == s.history[id]
  {
    hide LQ.Inv, AbsStatus, RowShape;
    assert Abs(t).rows[id] == AbsRow(t.messages[id], t.history[id]);
  }

  // The worker that holds the message crashes, or cannot write its outcome, or a claim of
  // the message is committed and the batch never reaches its worker.
  ghost predicate Loses(s: State, step: Step, ceiling: int, id: Id)
    requires Enabled(s, step, ceiling)
  {
    match step
    case Crash(w) => exists i: nat :: Holds(s, w, i) && s.workers[w].batch[i].id == id
    case Mark(w, _, write) => write.Refused? && s.workers[w].batch[0].id == id
    case Claim(_, picks, _, received) => !received && id in picks
    case _ => false
  }

  lemma LosesAbs(s: State, step: Step, ceiling: int, id: Id)
    requires Inv(s) && Enabled(s, step, ceiling)
    requires AbsStep(step) != [] ==> LQ.Enabled(Abs(s), AbsStep(step)[0])
    ensures Loses(s, step, ceiling, id) <==> AbsStep(step) != [] && LQ.Loses(Abs(s), AbsStep(step)[0], id)
  {
    hide LQ.Inv, IsClaim, CanMark, MarkFor, RowShape, AbsRow;
    match step {
      case Crash(w) => HeldAbs(s, w, id);
      case Mark(w, _, _) => assert Abs(s).holders[w].leases[0].key == s.workers[w].batch[0].id;
      case _ =>
    }
  }

  lemma HeldAbs(s: State, w: nat, id: Id)
    requires s.history.Keys == s.messages.Keys && w < |s.workers|
    ensures (exists i: nat :: Holds(s, w, i) && s.workers[w].batch[i].id == id) <==>
            exists i :: 0 <= i < |Abs(s).holders[w].leases| && Abs(s).holders[w].leases[i].key == id
  {
    hide AbsRow;
    if i: nat :| Holds(s, w, i) && s.workers[w].batch[i].id == id {
      var j := HoldsLease(s, w, i);
    }
    if i :| 0 <= i < |Abs(s).holders[w].leases| && Abs(s).holders[w].leases[i].key == id {
      var settled := s.workers[w].stage.Marked? || s.workers[w].stage.Recorded?;
      assert Holds(s, w, if settled then i + 1 else i);
    }
  }

  // A 'sending' message leaves that status only through the worker that holds it: it is
  // stranded after a step exactly if it was before or the step loses it.
  lemma LossStrands(s: State, step: Step, ceiling: int, id: Id)
    requires Inv(s) && Enabled(s, step, ceiling)
    ensures Stranded(Next(s, step, ceiling), id) <==> Stranded(s, id) || Loses(s, step, ceiling, id)
  {
    StepSimulates(s, step, ceiling);
    LosesAbs(s, step, ceiling, id);
    StrandedAbs(s, id);
    StrandedAbs(Next(s, step, ceiling), id);
    if AbsStep(step) != [] {
      LQ.StrandedStep(Abs(s), AbsStep(step)[0], id);
    }
  }

  ghost predicate LosesAt(s: State, steps: seq<Step>, i: nat, ceiling: int, id: Id)
    requires Valid(s, steps, ceiling) && i < |steps|
  {
    ValidPrefix(s, steps, i, ceiling);
    ValidPrefix(s, steps, i + 1, ceiling);
    assert steps[..i + 1][..i] == steps[..i];
    Loses(Exec(s, steps[..i], ceiling), steps[i], ceiling, id)
  }

  // Over whole runs: a message is stranded exactly if it was to begin with or some step of
  // the run lost it. From the empty queue it is the losses alone.
  lemma {:induction false} StrandedExactly(s: State, steps: seq<Step>, ceiling: int, id: Id)
    requires Inv(s) && Valid(s, steps, ceiling)
    ensures Stranded(Exec(s, steps, ceiling), id) <==>
            Stranded(s, id) || exists i: nat :: i < |steps| && LosesAt(s, steps, i, ceiling, id)
    decreases |steps|
  {
    if steps != [] {
      var before, n := steps[..|steps| - 1], |steps| - 1;
      StrandedExactly(s, before, ceiling, id);
      RunKeeps(s, before, ceiling);
      LossStrands(Exec(s, before, ceiling), steps[n], ceiling, id);
      hide Inv, Stranded, Enabled, Next, LosesAt;
      LosesAtSplit(s, steps, ceiling, id);
    }
  }

  lemma RunKeeps(s: State, steps: seq<Step>, ceiling: int)
    requires Inv(s) && Valid(s, steps, ceiling)
    ensures Inv(Exec(s, steps, ceiling))
  {
    RunRefines(s, steps, ceiling);
  }

  lemma LosesAtSplit(s: State, steps: seq<Step>, ceiling: int, id: Id)
    requires Valid(s, steps, ceiling) && steps != []
    ensures var before, n := steps[..|steps| - 1], |steps| - 1;
            && (LosesAt(s, steps, n, ceiling, id) <==> Loses(Exec(s, before, ceiling), steps[n], ceiling, id))
            && forall i: nat :: i < n ==> (LosesAt(s, steps, i, ceiling, id) <==> LosesAt(s, before, i, ceiling, id))
  {
    hide Loses, Enabled, Next;
    var before, n := steps[..|steps| - 1], |steps| - 1;
    forall i: nat | i < n
      ensures LosesAt(s, steps, i, ceiling, id) <==> LosesAt(s, before, i, ceiling, id)
    {
      assert before[..i] == steps[..i];
    }
  }

  // ---- Outcomes that cannot be written ----

  // The mark a worker with an answer is about to write.
  function MarkNow(s: State, w: nat, clock: int): Mark
    requires Active(s, w) && s.workers[w].stage.Answered?
  {
    MarkFor(s.workers[w].stage.reply, s.workers[w].stage.reason, s.workers[w].batch[0].attempts, clock)
  }

  lemma ClockIsNoMatter(s: State, w: nat, clock: int)
    requires Active(s, w) && s.workers[w].stage.Answered?
    ensures CanMark(MarkNow(s, w, clock)) <==> CanMark(MarkNow(s, w, s.now))
  {
    hide Storable, Truncate, Encode, Delay;
  }

  lemma AnsweredBefore(s: State, w: nat)
    requires Inv(s) && Active(s, w) && s.workers[w].stage.Answered?
    ensures s.workers[w].stage.at <= s.now
  {
    assert LQ.HolderOk(Abs(s), w) && LQ.LeaseOk(Abs(s), w, 0);
  }

  // Whatever its worker's next step writes, the message in hand is stranded.
  ghost predicate Doomed(s: State, w: nat, ceiling: int)
    requires Active(s, w)
  {
    forall clock, write :: Enabled(s, Step.Mark(w, clock, write), ceiling) ==>
      Stranded(Next(s, Step.Mark(w, clock, write), ceiling), s.workers[w].batch[0].id)
  }

  // A message is doomed exactly if last_error does not take the reason.
  lemma UnwritableStrands(s: State, w: nat, ceiling: int)
    requires Inv(s) && Active(s, w) && s.workers[w].stage.Answered?
    ensures Doomed(s, w, ceiling) <==> !CanMark(MarkNow(s, w, s.now))
  {
    var id := s.workers[w].batch[0].id;
    AnsweredBefore(s, w);
    assert Holds(s, w, 0);
    hide CanMark, MarkFor, Inv;
    forall clock, write | Enabled(s, Step.Mark(w, clock, write), ceiling)
      ensures Stranded(Next(s, Step.Mark(w, clock, write), ceiling), id) <==> write.Refused?
      ensures !CanMark(MarkNow(s, w, s.now)) ==> write.Refused?
    {
      ClockIsNoMatter(s, w, clock);
      LossStrands(s, Step.Mark(w, clock, write), ceiling, id);
    }
    if CanMark(MarkNow(s, w, s.now)) {
      assert Enabled(s, Step.Mark(w, s.now, Written), ceiling);
    }
  }

  // So a message whose outcome is a reason of valid text is doomed exactly if the reason
  // takes more than 500 bytes and the cut splits a character.
  lemma SplitReasonStrands(s: State, w: nat, text: string, ceiling: int)
    requires Inv(s) && Active(s, w) && s.workers[w].stage.Answered? && !MarkNow(s, w, s.now).MarkSent?
    requires DetailOf(MarkNow(s, w, s.now)) == Encode(text) && NoNul(text)
    ensures Doomed(s, w, ceiling) <==> |Encode(text)| > MAX_ERROR && |Encode(text[..Fitting(text, MAX_ERROR)])| != MAX_ERROR
  {
    hide Inv, Doomed, Encode, Fitting, Storable, MarkNow;
    UnwritableStrands(s, w, ceiling);
    StorableCut(text, MAX_ERROR);
  }

  // Such a reason: 499 letters and a character of two bytes.
  lemma SplitReason()
    ensures var text := Letters(MAX_ERROR - 1) + "\U{00E9}";
            NoNul(text) && !CanMark(MessageQueue.MarkFailed(Encode(text))) && !CanMark(MessageQueue.MarkDeferred(0, Encode(text)))
  {
    hide Encode, Storable, Letters;
    CutInside(MAX_ERROR);
  }

  // ---- The hourly ceiling ----

  function SentStamps(events: seq<Event>): seq<int> {
    if events == [] then []
    else
      var last := events[|events| - 1];
      SentStamps(events[..|events| - 1]) + if last.kind == SENT then [last.at] else []
  }

  lemma {:induction false} SentStampsCount(events: seq<Event>, t: int)
    ensures RW.After(SentStamps(events), t) == SentAfter(events, t)
  {
    if events != [] {
      SentStampsCount(events[..|events| - 1], t);
      var before, stamps := SentStamps(events[..|events| - 1]), SentStamps(events);
      if events[|events| - 1].kind == SENT {
        assert stamps[..|stamps| - 1] == before;
      } else {
        assert stamps == before;
      }
    }
  }

  // How many 'email.sent' events a worker may still record without testing the ceiling.
  function Budget(phase: Phase): nat {
    match phase
    case Idle => 0
    case Checked => BATCH
    case Working(batch, stage) => if batch == [] then 0 else if stage.Recorded? then |batch| - 1 else |batch|
  }

  function GateOf(s: State): RW.Gate {
    RW.Gate(s.now, SentStamps(s.events), seq(|s.workers|, w requires 0 <= w < |s.workers| => RW.Proc(Budget(s.workers[w]), [])))
  }

  lemma StampGate(s: State, step: Step, ceiling: int)
    requires Inv(s) && Enabled(s, step, ceiling)
    requires step.Record? && Next(s, step, ceiling).events != s.events && s.workers[step.w].stage.kind == SENT
    ensures var g, draft, commit := GateOf(s), RW.Draft(step.w), RW.Commit(step.w);
            && RW.Enabled(g, draft, ceiling, BATCH) && RW.Enabled(RW.Next(g, draft, ceiling, BATCH), commit, ceiling, BATCH)
            && GateOf(Next(s, step, ceiling)) == RW.Next(RW.Next(g, draft, ceiling, BATCH), commit, ceiling, BATCH)
  {
    hide LQ.Inv, Encode;
    var t, g := Next(s, step, ceiling), GateOf(s);
    var g2 := RW.Next(RW.Next(g, RW.Draft(step.w), ceiling, BATCH), RW.Commit(step.w), ceiling, BATCH);
    assert t.events[..|s.events|] == s.events;
    assert GateOf(t).stamps == g2.stamps;
    assert GateOf(t).procs == g2.procs;
  }

  // The step of the gate, or two, that a protocol step amounts to keeps the bound.
  lemma GateStep(s: State, step: Step, ceiling: int)
    requires ceiling > 0 && Inv(s) && Enabled(s, step, ceiling) && RW.Inv(GateOf(s), ceiling, BATCH)
    ensures RW.Inv(GateOf(Next(s, step, ceiling)), ceiling, BATCH)
  {
    hide Inv, RW.Inv, Encode;
    var t, g := Next(s, step, ceiling), GateOf(s);
    if step.Enqueue? {
      assert GateOf(t) == g;
    } else if step.Pass? {
      assert GateOf(t) == RW.Next(g, RW.Pass(step.d), ceiling, BATCH);
      RW.StepInv(g, RW.Pass(step.d), ceiling, BATCH);
    } else if step.Check? {
      SentStampsCount(s.events, s.now - HOUR);
      assert GateOf(t).procs == g.procs[step.w := RW.Proc(BATCH, [])];
      RW.StepInv(g, RW.Admit(step.w), ceiling, BATCH);
    } else if step.Record? && t.events != s.events && s.workers[step.w].stage.kind == SENT {
      StampGate(s, step, ceiling);
      RW.StepInv(g, RW.Draft(step.w), ceiling, BATCH);
      RW.StepInv(RW.Next(g, RW.Draft(step.w), ceiling, BATCH), RW.Commit(step.w), ceiling, BATCH);
    } else {
      SpendGate(s, step, ceiling);
      RW.StepInv(g, RW.Spend(step.w, Budget(t.workers[step.w])), ceiling, BATCH);
    }
  }

  lemma SpendGate(s: State, step: Step, ceiling: int)
    requires Inv(s) && Enabled(s, step, ceiling)
    requires !step.Enqueue? && !step.Pass? && !step.Check?
    requires step.Record? && Next(s, step, ceiling).events != s.events ==> s.workers[step.w].stage.kind != SENT
    ensures var spend := RW.Spend(step.w, Budget(Next(s, step, ceiling).workers[step.w]));
            RW.Enabled(GateOf(s), spend, ceiling, BATCH) && GateOf(Next(s, step, ceiling)) == RW.Next(GateOf(s), spend, ceiling, BATCH)
  {
    hide LQ.Inv, Encode, MarkFor, MarkRows;
    var t, g := Next(s, step, ceiling), GateOf(s);
    if t.events != s.events {
      assert t.events[..|s.events|] == s.events;
    }
    assert SentStamps(t.events) == g.stamps;
    assert GateOf(t).procs == g.procs[step.w := RW.Proc(Budget(t.workers[step.w]), [])];
  }

  lemma {:induction false} RunGate(s: State, steps: seq<Step>, ceiling: int)
    requires ceiling > 0 && Init(s) && Valid(s, steps, ceiling)
    ensures RW.Inv(GateOf(Exec(s, steps, ceiling)), ceiling, BATCH)
    decreases |steps|
  {
    if steps == [] {
      RW.InitInv(GateOf(s), ceiling, BATCH);
    } else {
      var before := steps[..|steps| - 1];
      RunGate(s, before, ceiling);
      InitInv(s);
      RunRefines(s, before, ceiling);
      GateStep(Exec(s, before, ceiling), steps[|steps| - 1], ceiling);
    }
  }

  lemma {:induction false} WorkersKept(s: State, steps: seq<Step>, ceiling: int)
    requires Valid(s, steps, ceiling)
    ensures |Exec(s, steps, ceiling).workers| == |s.workers|
    decreases |steps|
  {
    if steps != [] {
      WorkersKept(s, steps[..|steps| - 1], ceiling);
    }
  }

  // With a ceiling of M > 0 and N workers, every window of one hour of every run holds at
  // most M - 1 + 10 N 'email.sent' events: the ceiling is tested once per batch, so each
  // worker may overshoot by the batch it has.
  lemma CeilingHolds(s: State, steps: seq<Step>, ceiling: int, a: int)
    requires ceiling > 0 && Init(s) && Valid(s, steps, ceiling)
    ensures RW.Inside(SentStamps(Exec(s, steps, ceiling).events), a) <= ceiling - 1 + BATCH * |s.workers|
  {
    RunGate(s, steps, ceiling);
    WorkersKept(s, steps, ceiling);
    RW.OneWindow(GateOf(Exec(s, steps, ceiling)), ceiling, BATCH, a);
  }
}
