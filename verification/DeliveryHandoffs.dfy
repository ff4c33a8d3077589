// What the ceiling says of the messages handed over: it counts recorded events, so a handoff
// whose event is lost is no longer counted.
module DeliveryHandoffs {
  import opened Prelude
  import opened Utf8
  import opened Backoff
  import opened MessageQueue
  import opened DeliveryProtocol
  import opened DeliverySafety
  import DeliveryEvents
  import JsonString
  import Over = DeliveryOvershoot
  import LQ = LeaseQueue
  import RW = RateWindow

  // ---- Handoffs of an hour ----

  // When the engine accepted the message in hand, while its event is still to be recorded.
  function Unrecorded(phase: Phase): seq<int> {
    if !phase.Working? || phase.batch == [] then []
    else match phase.stage
      case Answered(reply, _, at) => if reply.Sent? then [at] else []
      case Marked(kind, _, at) => if kind == SENT then [at] else []
      case _ => []
  }

  // The handoff a step makes.
  function Accepts(s: State, step: Step): seq<int> {
    if step.Answer? && step.reply.Sent? then [s.now] else []
  }

  // The handoffs whose event a step gives up: the mark does not go well, the event is not
  // recorded, or the worker crashes.
  function GivesUp(s: State, step: Step): seq<int> {
    match step
    case Mark(w, _, write) => if w < |s.workers| && !write.Written? then Unrecorded(s.workers[w]) else []
    case Record(w, write) => if w < |s.workers| && write.Refused? then Unrecorded(s.workers[w]) else []
    case Crash(w) => if w < |s.workers| then Unrecorded(s.workers[w]) else []
    case _ => []
  }

  // Messages the engine accepted in the hour after a.
  ghost function Handoffs(s: State, steps: seq<Step>, ceiling: int, a: int): nat
    requires Valid(s, steps, ceiling)
    decreases |steps|
  {
    if steps == [] then 0
    else
      var before := steps[..|steps| - 1];
      Handoffs(s, before, ceiling, a) + RW.Inside(Accepts(Exec(s, before, ceiling), steps[|steps| - 1]), a)
  }

  // Those of them whose event was given up.
  ghost function LostHandoffs(s: State, steps: seq<Step>, ceiling: int, a: int): nat
    requires Valid(s, steps, ceiling)
    decreases |steps|
  {
    if steps == [] then 0
    else
      var before := steps[..|steps| - 1];
      LostHandoffs(s, before, ceiling, a) + RW.Inside(GivesUp(Exec(s, before, ceiling), steps[|steps| - 1]), a)
  }

  // ---- The gate of handoffs ----

  // A handoff is drafted when the engine answers and committed when its event is recorded.
  function HandProc(phase: Phase): RW.Proc {
    match phase
    case Idle => RW.Proc(0, [])
    case Checked => RW.Proc(BATCH, [])
    case Working(batch, stage) =>
      RW.Proc(if batch == [] then 0 else if stage.Ready? then |batch| else |batch| - 1, Unrecorded(phase))
  }

  function HandProcs(workers: seq<Phase>): (procs: seq<RW.Proc>)
    ensures |procs| == |workers| && forall w :: 0 <= w < |workers| ==> procs[w] == HandProc(workers[w])
  {
    seq(|workers|, w requires 0 <= w < |workers| => HandProc(workers[w]))
  }

  // stamps is when the recorded messages were handed over.
  function HandGate(s: State, stamps: seq<int>): RW.Gate {
    RW.Gate(s.now, stamps, HandProcs(s.workers))
  }

  function Records(s: State, step: Step): seq<int> {
    if step.Record? && step.w < |s.workers| && !step.write.Refused? then Unrecorded(s.workers[step.w]) else []
  }

  ghost function Recordings(s: State, steps: seq<Step>, ceiling: int): seq<int>
    requires Valid(s, steps, ceiling)
    decreases |steps|
  {
    if steps == [] then []
    else
      var before := steps[..|steps| - 1];
      Recordings(s, before, ceiling) + Records(Exec(s, before, ceiling), steps[|steps| - 1])
  }

  // No message is handed over after its event is recorded.
  ghost predicate Earlier(stamps: seq<int>, events: seq<int>) {
    |stamps| == |events| && forall i :: 0 <= i < |stamps| ==> stamps[i] <= events[i]
  }

  lemma {:induction false} EarlierAfter(stamps: seq<int>, events: seq<int>, t: int)
    requires Earlier(stamps, events)
    ensures RW.After(stamps, t) <= RW.After(events, t)
  {
    if stamps != [] {
      EarlierAfter(stamps[..|stamps| - 1], events[..|events| - 1], t);
    }
  }

  // A process that drops its draft or some of its budget keeps the bound.
  lemma Shrink(g: RW.Gate, p: nat, after: RW.Proc, limit: int, burst: nat)
    requires RW.Inv(g, limit, burst) && p < |g.procs|
    requires after.budget <= g.procs[p].budget && |g.procs[p].drafts| <= 1
    requires after.drafts == g.procs[p].drafts || after.drafts == []
    ensures RW.Inv(g.(procs := g.procs[p := after]), limit, burst)
  {
    var drafts := g.procs[p].drafts;
    RW.StepInv(g, RW.Spend(p, after.budget), limit, burst);
    var h := RW.Next(g, RW.Spend(p, after.budget), limit, burst);
    if after.drafts == drafts {
      assert h.procs[p] == after;
      assert h == g.(procs := g.procs[p := after]);
    } else {
      RW.StepInv(h, RW.Discard(p), limit, burst);
      assert drafts[..0] == [];
      assert RW.Next(h, RW.Discard(p), limit, burst) == g.(procs := g.procs[p := after]);
    }
  }

  // How a worker's process changes where nothing is admitted, drafted or committed.
  lemma QuietProc(s: State, step: Step, ceiling: int)
    requires Shape(s) && Enabled(s, step, ceiling)
    requires !step.Pass? && !step.Enqueue? && !step.Check? && Accepts(s, step) == [] && Records(s, step) == []
    ensures var t := Next(s, step, ceiling);
            var before, after := HandProc(s.workers[step.w]), HandProc(t.workers[step.w]);
            && after.budget <= before.budget && |before.drafts| <= 1
            && (if GivesUp(s, step) == [] then after.drafts == before.drafts
                else after.drafts == [] && GivesUp(s, step) == before.drafts)
  {
    hide Encode, MarkRows, CanMark, RowShape, JsonString.EventDetail;
    if step.Mark? {
      MarkProc(s, step, ceiling);
    }
  }

  lemma MarkProc(s: State, step: Step, ceiling: int)
    requires Enabled(s, step, ceiling) && step.Mark?
    ensures var t := Next(s, step, ceiling);
            t.workers[step.w] ==
            if step.write.Written? then
              var stage := s.workers[step.w].stage;
              var mark := MarkFor(stage.reply, stage.reason, s.workers[step.w].batch[0].attempts, step.clock);
              Working(s.workers[step.w].batch, Marked(KindOf(mark), DetailOf(mark), stage.at))
            else Finished(s.workers[step.w].batch)
    ensures HandProc(Next(s, step, ceiling).workers[step.w]) ==
            RW.Proc(|s.workers[step.w].batch| - 1, if step.write.Written? then Unrecorded(s.workers[step.w]) else [])
  {
    var stage, batch := s.workers[step.w].stage, s.workers[step.w].batch;
    DeliveryEvents.KindOfAnswer(stage.reply, stage.reason, batch[0].attempts, step.clock);
    hide MarkFor, MarkRows, CanMark, KindOf, DetailOf;
  }

  lemma ProcsStep(s: State, step: Step, ceiling: int)
    requires Enabled(s, step, ceiling) && !step.Pass? && !step.Enqueue?
    ensures var t := Next(s, step, ceiling);
            step.w < |s.workers| == |t.workers| && t.now == s.now &&
            HandProcs(t.workers) == HandProcs(s.workers)[step.w := HandProc(t.workers[step.w])]
  {
    hide MarkFor, MarkRows, CanMark, KindOf, DetailOf, IsClaim, HandProc, JsonString.EventDetail;
  }

  lemma AnswerGate(s: State, step: Step, ceiling: int, stamps: seq<int>)
    requires Enabled(s, step, ceiling) && Accepts(s, step) != [] && RW.Inv(HandGate(s, stamps), ceiling, BATCH)
    ensures RW.Inv(HandGate(Next(s, step, ceiling), stamps), ceiling, BATCH)
  {
    hide RW.Inv;
    ProcsStep(s, step, ceiling);
    var g, t := HandGate(s, stamps), Next(s, step, ceiling);
    assert [] + [s.now] == [s.now];
    assert HandGate(t, stamps) == RW.Next(g, RW.Draft(step.w), ceiling, BATCH);
    RW.StepInv(g, RW.Draft(step.w), ceiling, BATCH);
  }

  lemma RecordGate(s: State, step: Step, ceiling: int, stamps: seq<int>)
    requires Enabled(s, step, ceiling) && Records(s, step) != [] && RW.Inv(HandGate(s, stamps), ceiling, BATCH)
    ensures RW.Inv(HandGate(Next(s, step, ceiling), stamps + Records(s, step)), ceiling, BATCH)
  {
    hide RW.Inv, JsonString.EventDetail, MarkFor, MarkRows, CanMark, IsClaim;
    ProcsStep(s, step, ceiling);
    var g, t, at := HandGate(s, stamps), Next(s, step, ceiling), Records(s, step)[0];
    assert g.procs[step.w].drafts == [at] && [at][..0] == [];
    assert HandGate(t, stamps + [at]) == RW.Next(g, RW.Commit(step.w), ceiling, BATCH);
    RW.StepInv(g, RW.Commit(step.w), ceiling, BATCH);
  }

  lemma CheckGate(s: State, step: Step, ceiling: int, stamps: seq<int>)
    requires Enabled(s, step, ceiling) && step.Check? && ceiling > 0
    requires RW.Inv(HandGate(s, stamps), ceiling, BATCH) && Earlier(stamps, SentStamps(s.events))
    ensures RW.Inv(HandGate(Next(s, step, ceiling), stamps), ceiling, BATCH)
  {
    hide RW.Inv, Earlier;
    ProcsStep(s, step, ceiling);
    EarlierAfter(stamps, SentStamps(s.events), s.now - HOUR);
    SentStampsCount(s.events, s.now - HOUR);
    var g := HandGate(s, stamps);
    assert HandGate(Next(s, step, ceiling), stamps) == RW.Next(g, RW.Admit(step.w), ceiling, BATCH);
    RW.StepInv(g, RW.Admit(step.w), ceiling, BATCH);
  }

  lemma QuietGate(s: State, step: Step, ceiling: int, stamps: seq<int>)
    requires Shape(s) && Enabled(s, step, ceiling) && RW.Inv(HandGate(s, stamps), ceiling, BATCH)
    requires !step.Pass? && !step.Enqueue? && !step.Check? && Accepts(s, step) == [] && Records(s, step) == []
    ensures RW.Inv(HandGate(Next(s, step, ceiling), stamps), ceiling, BATCH)
  {
    hide RW.Inv, Shape, Enabled, Next, Accepts, Records, HandProc;
    ProcsStep(s, step, ceiling);
    QuietProc(s, step, ceiling);
    Shrink(HandGate(s, stamps), step.w, HandProc(Next(s, step, ceiling).workers[step.w]), ceiling, BATCH);
  }

  lemma StepGate(s: State, step: Step, ceiling: int, stamps: seq<int>)
    requires Shape(s) && Enabled(s, step, ceiling) && ceiling > 0
    requires RW.Inv(HandGate(s, stamps), ceiling, BATCH) && Earlier(stamps, SentStamps(s.events))
    ensures RW.Inv(HandGate(Next(s, step, ceiling), stamps + Records(s, step)), ceiling, BATCH)
  {
    hide RW.Inv, Shape, Earlier, Unrecorded;
    assert stamps + [] == stamps;
    if step.Pass? {
      RW.StepInv(HandGate(s, stamps), RW.Pass(step.d), ceiling, BATCH);
    } else if step.Enqueue? {
      assert HandGate(Next(s, step, ceiling), stamps) == HandGate(s, stamps);
    } else if step.Check? {
      CheckGate(s, step, ceiling, stamps);
    } else if Accepts(s, step) != [] {
      AnswerGate(s, step, ceiling, stamps);
    } else if Records(s, step) != [] {
      RecordGate(s, step, ceiling, stamps);
    } else {
      QuietGate(s, step, ceiling, stamps);
    }
  }

  lemma EventsStep(s: State, step: Step, ceiling: int)
    requires Enabled(s, step, ceiling)
    ensures var t := Next(s, step, ceiling);
            if step.Record? && !step.write.Refused? then
              SentStamps(t.events) == SentStamps(s.events) + if s.workers[step.w].stage.kind == SENT then [s.now] else []
            else t.events == s.events
    ensures Records(s, step) ==
            if step.Record? && !step.write.Refused? && s.workers[step.w].stage.kind == SENT then [s.workers[step.w].stage.at] else []
  {
    hide JsonString.EventDetail, MarkFor, MarkRows, CanMark, IsClaim;
    var t := Next(s, step, ceiling);
    if step.Record? && !step.write.Refused? {
      assert t.events[..|s.events|] == s.events;
    }
  }

  lemma RecordedLater(s: State, step: Step, ceiling: int, stamps: seq<int>)
    requires Enabled(s, step, ceiling) && RW.Inv(HandGate(s, stamps), ceiling, BATCH) && Records(s, step) != []
    ensures |Records(s, step)| == 1 && Records(s, step)[0] <= s.now
  {
    hide Enabled;
    assert HandGate(s, stamps).procs[step.w].drafts[0] <= s.now;
  }

  lemma StepEarlier(s: State, step: Step, ceiling: int, stamps: seq<int>)
    requires Enabled(s, step, ceiling) && RW.Inv(HandGate(s, stamps), ceiling, BATCH) && Earlier(stamps, SentStamps(s.events))
    ensures Earlier(stamps + Records(s, step), SentStamps(Next(s, step, ceiling).events))
  {
    hide Records, Next, Enabled, SentStamps, RW.Inv, HandGate;
    EventsStep(s, step, ceiling);
    if Records(s, step) != [] {
      RecordedLater(s, step, ceiling, stamps);
    }
    assert stamps + [] == stamps && SentStamps(s.events) + [] == SentStamps(s.events);
  }

  // ---- The books ----

  // Handoffs of the hour still to be recorded.
  function Pending(workers: seq<Phase>, a: int): nat {
    if workers == [] then 0
    else Pending(workers[..|workers| - 1], a) + RW.Inside(Unrecorded(workers[|workers| - 1]), a)
  }

  lemma {:induction false} PendingUpdate(workers: seq<Phase>, w: nat, phase: Phase, a: int)
    requires w < |workers|
    ensures Pending(workers[w := phase], a) == Pending(workers, a) - RW.Inside(Unrecorded(workers[w]), a) + RW.Inside(Unrecorded(phase), a)
  {
    hide Unrecorded, RW.Inside;
    var last := |workers| - 1;
    if w == last {
      assert workers[w := phase][..last] == workers[..last];
    } else {
      assert workers[w := phase][..last] == workers[..last][w := phase];
      PendingUpdate(workers[..last], w, phase, a);
    }
  }

  lemma {:induction false} PendingFew(workers: seq<Phase>, a: int, now: int)
    ensures Pending(workers, a) <= RW.Potentials(HandProcs(workers), a, now)
  {
    if workers != [] {
      var last := |workers| - 1;
      PendingFew(workers[..last], a, now);
      assert HandProcs(workers)[..last] == HandProcs(workers[..last]);
      hide Unrecorded, RW.Inside;
    }
  }

  lemma InsideNone(a: int)
    ensures RW.Inside([], a) == 0
  {
  }

  lemma WorkersStep(s: State, step: Step, ceiling: int)
    requires Shape(s) && Enabled(s, step, ceiling)
    ensures var t := Next(s, step, ceiling);
            if step.Pass? || step.Enqueue? then t.workers == s.workers && Accepts(s, step) == [] && GivesUp(s, step) == [] && Records(s, step) == []
            else
              && step.w < |s.workers| && t.workers == s.workers[step.w := t.workers[step.w]]
              && var before, after := Unrecorded(s.workers[step.w]), Unrecorded(t.workers[step.w]);
                 if Accepts(s, step) != [] then before == [] && after == Accepts(s, step) && GivesUp(s, step) == [] && Records(s, step) == []
                 else if GivesUp(s, step) != [] then before == GivesUp(s, step) && after == [] && Records(s, step) == []
                 else if Records(s, step) != [] then before == Records(s, step) && after == []
                 else after == before
  {
    hide Encode, MarkRows, CanMark, RowShape, JsonString.EventDetail;
    if step.Mark? {
      MarkProc(s, step, ceiling);
    }
  }

  lemma StepBooks(s: State, step: Step, ceiling: int, stamps: seq<int>, a: int)
    requires Shape(s) && Enabled(s, step, ceiling)
    ensures var t := Next(s, step, ceiling);
            RW.Inside(stamps, a) + Pending(s.workers, a) + RW.Inside(Accepts(s, step), a) ==
            RW.Inside(stamps + Records(s, step), a) + Pending(t.workers, a) + RW.Inside(GivesUp(s, step), a)
  {
    WorkersStep(s, step, ceiling);
    InsideAppend(stamps, Records(s, step), a);
    InsideNone(a);
    hide Shape, Enabled, Next, Accepts, GivesUp, Records, Unrecorded, RW.Inside;
    if !step.Pass? && !step.Enqueue? {
      PendingUpdate(s.workers, step.w, Next(s, step, ceiling).workers[step.w], a);
    }
  }

  lemma {:induction false} InsideAppend(x: seq<int>, y: seq<int>, a: int)
    ensures RW.Inside(x + y, a) == RW.Inside(x, a) + RW.Inside(y, a)
  {
    if y == [] {
      assert x + y == x;
    } else {
      assert (x + y)[..|x + y| - 1] == x + y[..|y| - 1];
      InsideAppend(x, y[..|y| - 1], a);
    }
  }

  lemma {:induction false} PendingIdle(workers: seq<Phase>, a: int)
    requires forall w :: 0 <= w < |workers| ==> workers[w] == Idle
    ensures Pending(workers, a) == 0
  {
    if workers != [] {
      PendingIdle(workers[..|workers| - 1], a);
    }
  }

  lemma StartGate(s: State, ceiling: int, a: int)
    requires Init(s) && ceiling > 0
    ensures Shape(s) && RW.Inv(HandGate(s, []), ceiling, BATCH) && Earlier([], SentStamps(s.events)) && Pending(s.workers, a) == 0
  {
    RW.InitInv(HandGate(s, []), ceiling, BATCH);
    PendingIdle(s.workers, a);
  }

  // In every run: what was handed over in the hour is recorded, still to be recorded, or lost.
  lemma {:induction false} RunBooks(s: State, steps: seq<Step>, ceiling: int, a: int)
    requires Init(s) && ceiling > 0 && Valid(s, steps, ceiling)
    ensures var t, stamps := Exec(s, steps, ceiling), Recordings(s, steps, ceiling);
            && Shape(t) && RW.Inv(HandGate(t, stamps), ceiling, BATCH) && Earlier(stamps, SentStamps(t.events))
            && Handoffs(s, steps, ceiling, a) == RW.Inside(stamps, a) + Pending(t.workers, a) + LostHandoffs(s, steps, ceiling, a)
            && |t.workers| == |s.workers|
    decreases |steps|
  {
    hide Init, Shape, Enabled, Next, RW.Inv, Earlier, Accepts, GivesUp, Records, RW.Inside, HandGate, SentStamps, Pending;
    if steps == [] {
      StartGate(s, ceiling, a);
      InsideNone(a);
    } else {
      var before, step := steps[..|steps| - 1], steps[|steps| - 1];
      RunBooks(s, before, ceiling, a);
      var t, stamps := Exec(s, before, ceiling), Recordings(s, before, ceiling);
      StepGate(t, step, ceiling, stamps);
      StepEarlier(t, step, ceiling, stamps);
      StepBooks(t, step, ceiling, stamps, a);
      RunShape(s, steps, ceiling);
      WorkersKept(s, steps, ceiling);
    }
  }

  lemma RunShape(s: State, steps: seq<Step>, ceiling: int)
    requires Init(s) && Valid(s, steps, ceiling)
    ensures Shape(Exec(s, steps, ceiling))
  {
    InitInv(s);
    RunRefines(s, steps, ceiling);
  }

  // With a ceiling of M > 0 and N workers, the messages handed over in any one hour of any
  // run are at most M - 1 + 10 N and those whose event was lost; without losses, M - 1 + 10 N.
  lemma HandoffsBounded(s: State, steps: seq<Step>, ceiling: int, a: int)
    requires Init(s) && ceiling > 0 && Valid(s, steps, ceiling)
    ensures Handoffs(s, steps, ceiling, a) <= ceiling - 1 + BATCH * |s.workers| + LostHandoffs(s, steps, ceiling, a)
  {
    RunBooks(s, steps, ceiling, a);
    hide Init, Shape, Earlier, Handoffs, LostHandoffs, Recordings, Pending, Valid, Exec;
    var t, stamps := Exec(s, steps, ceiling), Recordings(s, steps, ceiling);
    PendingFew(t.workers, a, t.now);
    assert RW.Covered(HandGate(t, stamps), a, ceiling, BATCH);
  }

  // ---- The bound is exact ----

  // Nothing was handed over before x.
  ghost predicate Since(s: State, stamps: seq<int>, x: int) {
    && x <= s.now && (forall i :: 0 <= i < |stamps| ==> x <= stamps[i])
    && forall w, i :: 0 <= w < |s.workers| && 0 <= i < |Unrecorded(s.workers[w])| ==> x <= Unrecorded(s.workers[w])[i]
  }

  lemma StepSince(s: State, step: Step, ceiling: int, stamps: seq<int>, x: int)
    requires Shape(s) && Enabled(s, step, ceiling) && Since(s, stamps, x)
    ensures Since(Next(s, step, ceiling), stamps + Records(s, step), x)
  {
    WorkersStep(s, step, ceiling);
    NowGrows(s, step, ceiling);
    hide Shape, Enabled, Next, Unrecorded, GivesUp, Records;
    assert stamps + [] == stamps;
  }

  lemma NowGrows(s: State, step: Step, ceiling: int)
    requires Enabled(s, step, ceiling)
    ensures s.now <= Next(s, step, ceiling).now
  {
  }

  lemma {:induction false} RunSince(s: State, steps: seq<Step>, ceiling: int)
    requires Init(s) && Valid(s, steps, ceiling)
    ensures Since(Exec(s, steps, ceiling), Recordings(s, steps, ceiling), s.now)
    decreases |steps|
  {
    if steps != [] {
      var before := steps[..|steps| - 1];
      RunSince(s, before, ceiling);
      RunShape(s, before, ceiling);
      hide Init, Shape, Since, Records;
      StepSince(Exec(s, before, ceiling), steps[|steps| - 1], ceiling, Recordings(s, before, ceiling), s.now);
    }
  }

  lemma {:induction false} EarlierInside(stamps: seq<int>, events: seq<int>, a: int)
    requires Earlier(stamps, events) && forall i :: 0 <= i < |stamps| ==> a < stamps[i]
    ensures RW.Inside(events, a) <= RW.Inside(stamps, a)
  {
    if stamps != [] {
      EarlierInside(stamps[..|stamps| - 1], events[..|events| - 1], a);
    }
  }

  lemma HandoffsReached(s: State, steps: seq<Step>, ceiling: int, m: int)
    requires Init(s) && ceiling > 0 && Over.Fills(s, steps, ceiling, s.now - 1, m)
    ensures Handoffs(s, steps, ceiling, s.now - 1) >= m + LostHandoffs(s, steps, ceiling, s.now - 1)
  {
    RunBooks(s, steps, ceiling, s.now - 1);
    RunSince(s, steps, ceiling);
    hide Init, Shape, Earlier, Handoffs, LostHandoffs, Recordings, Pending, Valid, Exec, RW.Inv, HandGate;
    EarlierInside(Recordings(s, steps, ceiling), SentStamps(Exec(s, steps, ceiling).events), s.now - 1);
  }

  // Whatever is lost, bound and that many handoffs are not passed in any hour of any run.
  ghost predicate Bounds(n: nat, ceiling: int, bound: int) {
    forall s: State, steps, a: int :: Init(s) && |s.workers| == n && Valid(s, steps, ceiling) ==>
      Handoffs(s, steps, ceiling, a) <= bound + LostHandoffs(s, steps, ceiling, a)
  }

  // Of the handoffs whose event is not lost, the bound is exact.
  lemma HandoffsExactly(n: nat, ceiling: int, bound: int)
    requires n > 0 && ceiling > 0
    ensures Bounds(n, ceiling, bound) <==> bound >= ceiling - 1 + 10 * n
  {
    var s := State(0, map[], [], seq(n, _ => Idle), map[], [], []);
    assert Init(s) && |s.workers| == n;
    Over.CeilingReached(s, ceiling);
    hide Init;
    var steps, a, m :| Over.Fills(s, steps, ceiling, a, m) && m == ceiling - 1 + BATCH * n && a == s.now - 1;
    HandoffsReached(s, steps, ceiling, m);
    forall s: State, steps, a: int | Init(s) && |s.workers| == n && Valid(s, steps, ceiling)
      ensures Handoffs(s, steps, ceiling, a) <= ceiling - 1 + BATCH * n + LostHandoffs(s, steps, ceiling, a)
    {
      HandoffsBounded(s, steps, ceiling, a);
    }
    if bound < ceiling - 1 + BATCH * n {
      assert Handoffs(s, steps, ceiling, a) > bound + LostHandoffs(s, steps, ceiling, a);
    }
  }

  // ---- Without a bound ----

  // A run to t in which m messages were handed over in the hour after a, none of them
  // recorded, and nothing is claimable.
  ghost predicate Unseen(s: State, steps: seq<Step>, t: State, n: nat, ceiling: int, a: int, m: nat) {
    && Runs(s, steps, t, ceiling) && Over.Done(t, n) && t.events == [] && t.now == s.now
    && t.workers == s.workers && Handoffs(s, steps, ceiling, a) == m
  }

  lemma HandoffsMore(s: State, steps: seq<Step>, t: State, step: Step, ceiling: int, a: int)
    requires Runs(s, steps, t, ceiling) && Enabled(t, step, ceiling)
    ensures Runs(s, steps + [step], Next(t, step, ceiling), ceiling)
    ensures Handoffs(s, steps + [step], ceiling, a) == Handoffs(s, steps, ceiling, a) + RW.Inside(Accepts(t, step), a)
  {
    RunsMore(s, steps, t, step, ceiling);
    assert (steps + [step])[..|steps|] == steps;
  }

  // The first worker is given one message.
  lemma GivenOne(t: State, n: nat, ceiling: int) returns (enqueue: Step, claim: Step, u: State, v: State, x: State)
    requires Over.Done(t, n) && t.events == [] && t.workers != [] && t.workers[0] == Idle && ceiling > 0
    ensures Enabled(t, enqueue, ceiling) && u == Next(t, enqueue, ceiling) && enqueue.Enqueue?
    ensures Enabled(u, Check(0), ceiling) && v == Next(u, Check(0), ceiling)
    ensures Enabled(v, claim, ceiling) && x == Next(v, claim, ceiling) && claim.Claim?
    ensures Over.InHand(x, 0, n + 1) && |x.workers[0].batch| == 1 && x.events == [] && x.now == t.now
    ensures x.workers == t.workers[0 := x.workers[0]]
  {
    hide Over.Done, Over.Waiting, Over.InHand, NthName, Over.Row, Enabled, Next;
    Over.NoneWaiting(t, n);
    Over.QueueOne(t, n, [], ceiling);
    var id := NthName(n);
    assert [] + [id] == [id];
    enqueue, claim := Enqueue(id, t.now, None, Some([])), Claim(0, [id], {}, true);
    u := Next(t, enqueue, ceiling);
    ChecksFreely(u, ceiling);
    v := Next(u, Check(0), ceiling);
    StillWaiting(u, v, n, [id]);
    Over.ClaimHands(v, 0, n, [id], ceiling);
    x := Next(v, claim, ceiling);
  }

  lemma ChecksFreely(u: State, ceiling: int)
    requires u.events == [] && u.workers != [] && u.workers[0] == Idle && ceiling > 0
    ensures Enabled(u, Check(0), ceiling) && Next(u, Check(0), ceiling) == At(u, 0, Checked)
  {
  }

  lemma StillWaiting(u: State, v: State, n: nat, ids: seq<Id>)
    requires Over.Waiting(u, n, ids) && v.messages == u.messages && v.now == u.now
    ensures Over.Waiting(v, n, ids)
  {
  }

  // It hands the message over and cannot write that down.
  lemma HandsOver(x: State, n: nat, ceiling: int) returns (y: State, z: State)
    requires Over.InHand(x, 0, n) && |x.workers[0].batch| == 1 && x.events == []
    ensures Enabled(x, Answer(0, Reply.Sent, []), ceiling) && y == Next(x, Answer(0, Reply.Sent, []), ceiling)
    ensures Enabled(y, Step.Mark(0, x.now, Refused), ceiling) && z == Next(y, Step.Mark(0, x.now, Refused), ceiling)
    ensures Over.Done(z, n) && z.events == [] && z.now == x.now && z.workers == x.workers[0 := Idle]
    ensures Accepts(x, Answer(0, Reply.Sent, [])) == [x.now] && Accepts(y, Step.Mark(0, x.now, Refused)) == []
  {
    hide Encode, CanMark, MarkRows;
    y := Next(x, Answer(0, Reply.Sent, []), ceiling);
    z := Next(y, Step.Mark(0, x.now, Refused), ceiling);
  }

  lemma OneUnseen(s: State, steps: seq<Step>, t: State, n: nat, ceiling: int, m: nat) returns (more: seq<Step>, u: State)
    requires Unseen(s, steps, t, n, ceiling, s.now - 1, m) && s.workers != [] && s.workers[0] == Idle && ceiling > 0
    ensures Unseen(s, more, u, n + 1, ceiling, s.now - 1, m + 1)
  {
    hide Runs, Handoffs, Enabled, Next, Over.Done, Over.InHand, Accepts;
    var a := s.now - 1;
    var enqueue, claim, u1, u2, u3 := GivenOne(t, n, ceiling);
    var u4, u5 := HandsOver(u3, n + 1, ceiling);
    NothingAccepted(t, enqueue);
    NothingAccepted(u1, Check(0));
    NothingAccepted(u2, claim);
    InsideNow(s.now);
    var answer, mark := Answer(0, Reply.Sent, []), Step.Mark(0, u3.now, Refused);
    HandoffsMore(s, steps, t, enqueue, ceiling, a);
    HandoffsMore(s, steps + [enqueue], u1, Check(0), ceiling, a);
    HandoffsMore(s, steps + [enqueue] + [Check(0)], u2, claim, ceiling, a);
    HandoffsMore(s, steps + [enqueue] + [Check(0)] + [claim], u3, answer, ceiling, a);
    HandoffsMore(s, steps + [enqueue] + [Check(0)] + [claim] + [answer], u4, mark, ceiling, a);
    more, u := steps + [enqueue] + [Check(0)] + [claim] + [answer] + [mark], u5;
    assert u.workers == t.workers;
  }

  lemma NothingAccepted(s: State, step: Step)
    requires !step.Answer?
    ensures Accepts(s, step) == []
  {
  }

  lemma InsideNow(now: int)
    ensures RW.Inside([now], now - 1) == 1 && RW.Inside([], now - 1) == 0
  {
    assert [now][..0] == [];
  }

  lemma StartUnseen(s: State, ceiling: int)
    requires Init(s)
    ensures Unseen(s, [], s, 0, ceiling, s.now - 1, 0)
    ensures s.workers != [] ==> s.workers[0] == Idle
  {
    RunsNone(s, ceiling);
  }

  lemma {:induction false} ManyUnseen(s: State, ceiling: int, m: nat) returns (steps: seq<Step>, t: State)
    requires Init(s) && s.workers != [] && ceiling > 0
    ensures Unseen(s, steps, t, m, ceiling, s.now - 1, m)
  {
    StartUnseen(s, ceiling);
    hide Init, Unseen;
    if m == 0 {
      steps, t := [], s;
    } else {
      var before, u := ManyUnseen(s, ceiling, m - 1);
      steps, t := OneUnseen(s, before, u, m - 1, ceiling, m - 1);
    }
  }

  ghost predicate HandsOverMany(s: State, steps: seq<Step>, ceiling: int, a: int, m: int) {
    Valid(s, steps, ceiling) && Handoffs(s, steps, ceiling, a) == m
  }

  // No number bounds the handoffs of an hour over all runs, whatever the ceiling and the
  // number of workers: with marks that are refused, one worker hands over as many as it likes.
  lemma HandoffsUnbounded(s: State, ceiling: int, m: nat)
    requires Init(s) && s.workers != [] && ceiling > 0
    ensures exists steps, a :: HandsOverMany(s, steps, ceiling, a, m) && a == s.now - 1
  {
    hide Init;
    var steps, t := ManyUnseen(s, ceiling, m);
    assert HandsOverMany(s, steps, ceiling, s.now - 1, m);
  }
}
