// The events a run of the delivery protocol records and the webhooks it publishes.
module DeliveryEvents {
  import opened Prelude
  import opened Utf8
  import opened MessageQueue
  import opened DeliveryProtocol
  import opened Decimal
  import opened Text
  import JsonString
  import Backoff
  import LQ = LeaseQueue

  // publish's event id.
  function EventId(note: Note): string {
    note.id + ":" + note.kind + ":" + Format(note.attempt)
  }

  predicate Plain(kind: string) {
    ':' !in kind
  }

  lemma {:induction false} LastColon(a: string, b: string, c: string, d: string)
    requires a + ":" + b == c + ":" + d && ':' !in b && ':' !in d
    ensures a == c && b == d
  {
    var s := a + ":" + b;
    assert s[|a|] == ':' && s[|c|] == ':';
    assert s[..|a|] == a && s[..|c|] == c;
    assert s[|a| + 1..] == b && s[|c| + 1..] == d;
  }

  // Different (message, type, attempt) never share an event id, whatever the message id
  // holds, as long as types hold no colon.
  lemma EventIdInjective(m: Note, n: Note)
    requires Plain(m.kind) && Plain(n.kind) && EventId(m) == EventId(n)
    ensures m == n
  {
    FormatHasNoOther(m.attempt, ':');
    FormatHasNoOther(n.attempt, ':');
    assert EventId(m) == (m.id + ":" + m.kind) + ":" + Format(m.attempt);
    assert EventId(n) == (n.id + ":" + n.kind) + ":" + Format(n.attempt);
    LastColon(m.id + ":" + m.kind, Format(m.attempt), n.id + ":" + n.kind, Format(n.attempt));
    LastColon(m.id, m.kind, n.id, n.kind);
    FormatInjective(m.attempt, n.attempt);
  }

  // A reader of event ids, from the end: the attempt, the type, and the message's id.
  function ReadEventId(s: string): Option<Note> {
    var second := LastIndex(s, ':');
    if second < 0 then None
    else
      var first, attempt := LastIndex(s[..second], ':'), ParseInt(s[second + 1..]);
      if first < 0 || attempt.None? || attempt.value < 0 then None
      else Some(Note(s[..first], s[first + 1..second], attempt.value))
  }

  lemma LastColonAt(a: string, b: string)
    requires ':' !in b
    ensures LastIndex(a + ":" + b, ':') == |a|
  {
    hide LastIndex;
    var s := a + ":" + b;
    assert s[|a|] == ':' && s[|a| + 1..] == b;
    forall j | |a| < j < |s|
      ensures s[j] != ':'
    {
      assert s[j] == b[j - |a| - 1];
    }
  }

  // Of every event id the three parts are read back.
  lemma EventIdReads(note: Note)
    requires Plain(note.kind) && IsInt64(note.attempt)
    ensures ReadEventId(EventId(note)) == Some(note)
  {
    hide LastIndex, ParseInt, Format;
    var front, last := note.id + ":" + note.kind, Format(note.attempt);
    FormatHasNoOther(note.attempt, ':');
    ParseFormat(note.attempt);
    LastColonAt(front, last);
    LastColonAt(note.id, note.kind);
    var s := EventId(note);
    assert s == front + ":" + last;
    assert LastIndex(s, ':') == |front| && s[..|front|] == front && s[|front| + 1..] == last;
    assert LastIndex(front, ':') == |note.id|;
    assert front[..|note.id|] == note.id && front[|note.id| + 1..] == note.kind;
    assert s[|note.id| + 1..|front|] == note.kind;
    assert s[..|note.id|] == note.id;
  }

  // ---- One note per claim ----

  predicate SameClaim(note: Note, job: Job) {
    note.id == job.id && note.attempt == job.attempts
  }

  ghost predicate OncePerClaim(log: seq<Note>) {
    forall i, j :: 0 <= i < j < |log| ==> log[i].id != log[j].id || log[i].attempt != log[j].attempt
  }

  ghost predicate LogKnown(s: State, log: seq<Note>) {
    forall i :: 0 <= i < |log| ==> log[i].id in s.messages && log[i].attempt <= s.messages[log[i].id].attempts
  }

  ghost predicate Absent(log: seq<Note>, job: Job) {
    forall i :: 0 <= i < |log| ==> !SameClaim(log[i], job)
  }

  predicate HasJob(s: State, w: nat, i: nat) {
    Active(s, w) && i < |s.workers[w].batch|
  }

  ghost predicate JobOk(s: State, w: nat, i: nat)
    requires HasJob(s, w, i)
  {
    var job := s.workers[w].batch[i];
    && job.id in s.messages && job.attempts <= s.messages[job.id].attempts
    && Absent(s.published, job)
    && ((i == 0 && s.workers[w].stage.Recorded?) || Absent(s.recorded, job))
  }

  // Every claim in progress is in progress once, and in no log yet.
  ghost predicate Once(s: State) {
    && OncePerClaim(s.published) && LogKnown(s, s.published)
    && OncePerClaim(s.recorded) && LogKnown(s, s.recorded)
    && (forall w: nat, i: nat :: HasJob(s, w, i) ==> JobOk(s, w, i))
    && (forall v: nat, i: nat, w: nat, j: nat :: HasJob(s, v, i) && HasJob(s, w, j) && s.workers[v].batch[i] == s.workers[w].batch[j] ==> v == w && i == j)
  }

  // Where job (w, i) of the next state was before, for every step but a claim.
  function Before(s: State, t: State, w: nat, i: nat): nat
    requires w < |s.workers| == |t.workers| && t.workers[w].Working? && s.workers[w].Working?
  {
    if |t.workers[w].batch| < |s.workers[w].batch| then i + 1 else i
  }

  lemma PicksDiffer(s: State, step: Step, ceiling: int)
    requires Enabled(s, step, ceiling) && step.Claim?
    ensures forall i, j :: 0 <= i < j < |step.picks| ==> step.picks[i] != step.picks[j]
    ensures forall id :: id in step.picks ==>
              id in s.messages && Next(s, step, ceiling).messages[id].attempts == s.messages[id].attempts + 1
    ensures forall id :: id in s.messages ==> Next(s, step, ceiling).messages[id].attempts >= s.messages[id].attempts
  {
    hide CanMark, MarkFor, GrantedTo, Due;
  }

  lemma ClaimOnce(s: State, step: Step, ceiling: int)
    requires Shape(s) && Enabled(s, step, ceiling) && step.Claim? && Once(s)
    ensures Once(Next(s, step, ceiling))
  {
    hide IsClaim, CanMark, MarkFor, ClaimRow, GrantedTo, RowShape;
    var t, w := Next(s, step, ceiling), step.w;
    PicksDiffer(s, step, ceiling);
    forall v: nat, i: nat | HasJob(t, v, i)
      ensures JobOk(t, v, i)
    {
      if v == w {
        assert step.picks[i] in step.picks;
      } else {
        assert HasJob(s, v, i) && JobOk(s, v, i);
      }
    }
    forall v: nat, i: nat, x: nat, j: nat | HasJob(t, v, i) && HasJob(t, x, j) && t.workers[v].batch[i] == t.workers[x].batch[j]
      ensures v == x && i == j
    {
      if v != w {
        assert HasJob(s, v, i) && JobOk(s, v, i);
      }
      if x != w {
        assert HasJob(s, x, j) && JobOk(s, x, j);
      }
      if v == w {
        assert step.picks[i] in step.picks;
      }
      if x == w {
        assert step.picks[j] in step.picks;
      }
    }
  }

  lemma LogOnce(s: State, step: Step, ceiling: int)
    requires Shape(s) && Enabled(s, step, ceiling) && !step.Claim? && Once(s)
    ensures var t := Next(s, step, ceiling);
            && OncePerClaim(t.published) && LogKnown(t, t.published)
            && OncePerClaim(t.recorded) && LogKnown(t, t.recorded)
  {
    hide Encode, MarkFor, JsonString.EventDetail;
    if step.Record? || step.Publish? {
      assert HasJob(s, step.w, 0) && JobOk(s, step.w, 0);
    }
  }

  lemma JobBefore(s: State, step: Step, ceiling: int, w: nat, i: nat)
    requires Shape(s) && Enabled(s, step, ceiling) && !step.Claim? && Once(s) && HasJob(Next(s, step, ceiling), w, i)
    ensures var t := Next(s, step, ceiling);
            && w < |s.workers| == |t.workers| && t.workers[w].Working? && s.workers[w].Working?
            && HasJob(s, w, Before(s, t, w, i)) && s.workers[w].batch[Before(s, t, w, i)] == t.workers[w].batch[i]
            && JobOk(t, w, i)
  {
    hide Encode, MarkFor, CanMark, IsClaim, RowShape, JsonString.EventDetail;
    var i0 := Before(s, Next(s, step, ceiling), w, i);
    assert HasJob(s, w, i0) && JobOk(s, w, i0);
  }

  lemma JobsOnce(s: State, step: Step, ceiling: int)
    requires Shape(s) && Enabled(s, step, ceiling) && !step.Claim? && Once(s)
    ensures var t := Next(s, step, ceiling);
            && (forall w: nat, i: nat :: HasJob(t, w, i) ==> JobOk(t, w, i))
            && (forall v: nat, i: nat, w: nat, j: nat :: HasJob(t, v, i) && HasJob(t, w, j) && t.workers[v].batch[i] == t.workers[w].batch[j] ==> v == w && i == j)
  {
    hide Shape, Enabled, Next, JobOk, OncePerClaim, LogKnown;
    var t := Next(s, step, ceiling);
    forall w: nat, i: nat | HasJob(t, w, i)
      ensures w < |s.workers| == |t.workers| && t.workers[w].Working? && s.workers[w].Working?
      ensures HasJob(s, w, Before(s, t, w, i)) && s.workers[w].batch[Before(s, t, w, i)] == t.workers[w].batch[i]
      ensures JobOk(t, w, i)
    {
      JobBefore(s, step, ceiling, w, i);
    }
  }

  lemma StepOnce(s: State, step: Step, ceiling: int)
    requires Shape(s) && Enabled(s, step, ceiling) && Once(s)
    ensures Once(Next(s, step, ceiling))
  {
    if step.Claim? {
      ClaimOnce(s, step, ceiling);
    } else {
      LogOnce(s, step, ceiling);
      JobsOnce(s, step, ceiling);
    }
  }

  // ---- Events say what the engine answered ----

  // What there is to say of an attempt with this verdict. The eighth is the last.
  function EventFor(verdict: LQ.Verdict, attempt: nat): string {
    match verdict
    case Accepted => "email.sent"
    case Rejected => "email.failed"
    case TryLater => if attempt < 8 then "email.deferred" else "email.failed"
  }

  lemma EventForKinds(verdict: LQ.Verdict, attempt: nat)
    ensures Plain(EventFor(verdict, attempt))
    ensures EventFor(verdict, attempt) == "email.sent" <==> verdict.Accepted?
    ensures EventFor(verdict, attempt) == "email.deferred" <==> verdict.TryLater? && attempt < 8
    ensures EventFor(verdict, attempt) == "email.failed" <==> verdict.Rejected? || (verdict.TryLater? && attempt >= 8)
  {
    assert "email.sent"[6] != "email.deferred"[6] && "email.sent"[6] != "email.failed"[6] && "email.deferred"[6] != "email.failed"[6];
  }

  // A verdict was reached on this attempt, and the note says it.
  ghost predicate Supported(history: map<Id, History>, note: Note) {
    note.id in history &&
    exists k :: 0 <= k < |history[note.id].rulings| && history[note.id].rulings[k].attempt == note.attempt &&
                note.kind == EventFor(history[note.id].rulings[k].verdict, note.attempt)
  }

  ghost predicate Truthful(s: State) {
    && |s.events| == |s.recorded|
    && (forall i :: 0 <= i < |s.events| ==> s.events[i].messageId == s.recorded[i].id && s.events[i].kind == s.recorded[i].kind)
    && (forall i :: 0 <= i < |s.recorded| ==> Plain(s.recorded[i].kind) && Supported(s.history, s.recorded[i]))
    && (forall i :: 0 <= i < |s.published| ==> Plain(s.published[i].kind) && Supported(s.history, s.published[i]))
    && (forall w :: 0 <= w < |s.workers| && Active(s, w) && (s.workers[w].stage.Marked? || s.workers[w].stage.Recorded?) ==>
          Plain(s.workers[w].stage.kind) && Supported(s.history, NoteOf(s, w)))
  }

  lemma SupportedGrows(earlier: map<Id, History>, later: map<Id, History>, note: Note)
    requires Supported(earlier, note)
    requires forall id :: id in earlier ==> id in later && earlier[id].rulings <= later[id].rulings
    ensures Supported(later, note)
  {
    var k :| 0 <= k < |earlier[note.id].rulings| && earlier[note.id].rulings[k].attempt == note.attempt &&
             note.kind == EventFor(earlier[note.id].rulings[k].verdict, note.attempt);
    assert later[note.id].rulings[k] == earlier[note.id].rulings[k];
  }

  // The event of a mark is the one its verdict calls for.
  lemma KindOfAnswer(reply: Reply, reason: Bytes, attempts: nat, clock: int)
    ensures KindOf(MarkFor(reply, reason, attempts, clock)) == EventFor(VerdictOf(reply), attempts)
    ensures Plain(EventFor(VerdictOf(reply), attempts))
    ensures KindOf(MarkFor(reply, reason, attempts, clock)) == SENT <==> VerdictOf(reply) == LQ.Accepted
  {
    hide Encode, Backoff.Delay;
    EventForKinds(VerdictOf(reply), attempts);
  }

  lemma MarkedNote(s: State, step: Step, ceiling: int)
    requires Enabled(s, step, ceiling) && step.Mark? && step.write.Written?
    ensures var w, t, stage := step.w, Next(s, step, ceiling), s.workers[step.w].stage;
            && t.history == s.history && Active(t, w) && t.workers[w].stage.Marked?
            && NoteOf(t, w) == Note(s.workers[w].batch[0].id,
                                    KindOf(MarkFor(stage.reply, stage.reason, s.workers[w].batch[0].attempts, step.clock)),
                                    s.workers[w].batch[0].attempts)
  {
    hide Encode, Truncate, MarkRows, MarkFor, KindOf, DetailOf;
  }

  lemma MarkSupported(s: State, step: Step, ceiling: int)
    requires Inv(s) && Enabled(s, step, ceiling) && step.Mark? && step.write.Written?
    ensures var t := Next(s, step, ceiling);
            Plain(t.workers[step.w].stage.kind) && Supported(t.history, NoteOf(t, step.w))
  {
    var job, stage := s.workers[step.w].batch[0], s.workers[step.w].stage;
    RuledLast(s, step.w);
    MarkedNote(s, step, ceiling);
    KindOfAnswer(stage.reply, stage.reason, job.attempts, step.clock);
    hide Next, Inv, Plain, KindOf, MarkFor, Encode;
    var rulings := s.history[job.id].rulings;
    assert rulings[|rulings| - 1] == LQ.Ruling(job.attempts, VerdictOf(stage.reply));
  }

  // The last verdict on a message in hand is the answer its worker has.
  lemma RuledLast(s: State, w: nat)
    requires Inv(s) && Active(s, w) && s.workers[w].stage.Answered?
    ensures var job := s.workers[w].batch[0];
            && job.id in s.history && s.history[job.id].rulings != []
            && var rulings := s.history[job.id].rulings;
               rulings[|rulings| - 1] == LQ.Ruling(job.attempts, VerdictOf(s.workers[w].stage.reply))
  {
    hide Encode, Truncate;
    var job := s.workers[w].batch[0];
    assert Abs(s).holders[w].leases[0] == LQ.Lease(job.id, job.attempts);
    assert LQ.HolderOk(Abs(s), w) && LQ.LeaseOk(Abs(s), w, 0);
  }

  lemma HistoryGrows(s: State, step: Step, ceiling: int, note: Note)
    requires Inv(s) && Enabled(s, step, ceiling) && Supported(s.history, note)
    ensures Supported(Next(s, step, ceiling).history, note)
  {
    hide LQ.Inv, Encode, MarkFor, JsonString.EventDetail;
    SupportedGrows(s.history, Next(s, step, ceiling).history, note);
  }

  lemma LogsTruthful(s: State, step: Step, ceiling: int, t: State)
    requires Inv(s) && Enabled(s, step, ceiling) && Truthful(s) && t == Next(s, step, ceiling)
    ensures |t.events| == |t.recorded|
    ensures forall i :: 0 <= i < |t.events| ==> t.events[i].messageId == t.recorded[i].id && t.events[i].kind == t.recorded[i].kind
    ensures forall i :: 0 <= i < |t.recorded| ==> Plain(t.recorded[i].kind) && Supported(t.history, t.recorded[i])
    ensures forall i :: 0 <= i < |t.published| ==> Plain(t.published[i].kind) && Supported(t.history, t.published[i])
  {
    hide LQ.Inv, Inv, Encode, MarkFor, CanMark, IsClaim, JsonString.EventDetail, Supported, Plain;
    forall note | Supported(s.history, note)
      ensures Supported(t.history, note)
    {
      HistoryGrows(s, step, ceiling, note);
    }
  }

  lemma StageTruthful(s: State, step: Step, ceiling: int, w: nat)
    requires Inv(s) && Enabled(s, step, ceiling) && Truthful(s)
    requires var t := Next(s, step, ceiling); Active(t, w) && (t.workers[w].stage.Marked? || t.workers[w].stage.Recorded?)
    ensures var t := Next(s, step, ceiling);
            Plain(t.workers[w].stage.kind) && Supported(t.history, NoteOf(t, w))
  {
    hide LQ.Inv, Inv, Encode, MarkFor, CanMark, IsClaim, JsonString.EventDetail, Supported, Plain;
    var t := Next(s, step, ceiling);
    if step.Mark? && step.w == w {
      MarkSupported(s, step, ceiling);
    } else {
      assert Active(s, w) && (s.workers[w].stage.Marked? || s.workers[w].stage.Recorded?);
      assert NoteOf(t, w) == NoteOf(s, w);
      HistoryGrows(s, step, ceiling, NoteOf(s, w));
    }
  }

  lemma StepTruthful(s: State, step: Step, ceiling: int)
    requires Inv(s) && Enabled(s, step, ceiling) && Truthful(s)
    ensures Truthful(Next(s, step, ceiling))
  {
    hide Inv, Enabled, Next, Supported, Plain;
    var t := Next(s, step, ceiling);
    LogsTruthful(s, step, ceiling, t);
    forall w | 0 <= w < |t.workers| && Active(t, w) && (t.workers[w].stage.Marked? || t.workers[w].stage.Recorded?)
      ensures Plain(t.workers[w].stage.kind) && Supported(t.history, NoteOf(t, w))
    {
      StageTruthful(s, step, ceiling, w);
    }
  }

  lemma {:induction false} RunEvents(s: State, steps: seq<Step>, ceiling: int)
    requires Init(s) && Valid(s, steps, ceiling)
    ensures Inv(Exec(s, steps, ceiling)) && Once(Exec(s, steps, ceiling)) && Truthful(Exec(s, steps, ceiling))
    decreases |steps|
  {
    InitInv(s);
    if steps != [] {
      var before, last := steps[..|steps| - 1], steps[|steps| - 1];
      RunEvents(s, before, ceiling);
      StepSimulates(Exec(s, before, ceiling), last, ceiling);
      StepOnce(Exec(s, before, ceiling), last, ceiling);
      StepTruthful(Exec(s, before, ceiling), last, ceiling);
    }
  }

  // The engine's verdict on the attempt a note is about.
  ghost predicate Verdict(history: map<Id, History>, note: Note, verdict: LQ.Verdict) {
    note.id in history && LQ.Ruling(note.attempt, verdict) in history[note.id].rulings
  }

  // In every run, an event recorded or published is 'email.sent' exactly if the engine
  // accepted the message on that attempt, 'email.deferred' exactly if it was to be tried later
  // and the attempt was before the eighth, and 'email.failed' exactly if it was refused, or to
  // be tried later on the eighth.
  lemma EventsFollowVerdicts(s: State, steps: seq<Step>, ceiling: int, note: Note)
    requires Init(s) && Valid(s, steps, ceiling)
    requires note in Exec(s, steps, ceiling).recorded || note in Exec(s, steps, ceiling).published
    ensures var h := Exec(s, steps, ceiling).history;
            && (note.kind == "email.sent" <==> Verdict(h, note, LQ.Accepted))
            && (note.kind == "email.deferred" <==> Verdict(h, note, LQ.TryLater) && note.attempt < 8)
            && (note.kind == "email.failed" <==> Verdict(h, note, LQ.Rejected) || (Verdict(h, note, LQ.TryLater) && note.attempt >= 8))
  {
    RunEvents(s, steps, ceiling);
    hide Valid, Exec, Inv, Once, Supported, EventFor, Verdict;
    SupportedMeaning(Exec(s, steps, ceiling), note);
  }

  lemma SupportedMeaning(s: State, note: Note)
    requires Inv(s) && Supported(s.history, note)
    ensures note.kind == "email.sent" <==> Verdict(s.history, note, LQ.Accepted)
    ensures note.kind == "email.deferred" <==> Verdict(s.history, note, LQ.TryLater) && note.attempt < 8
    ensures note.kind == "email.failed" <==>
              Verdict(s.history, note, LQ.Rejected) || (Verdict(s.history, note, LQ.TryLater) && note.attempt >= 8)
  {
    var rulings := s.history[note.id].rulings;
    var k :| 0 <= k < |rulings| && rulings[k].attempt == note.attempt && note.kind == EventFor(rulings[k].verdict, note.attempt);
    EventForKinds(rulings[k].verdict, note.attempt);
    hide EventFor;
    assert LQ.RowOk(Abs(s).rows[note.id], s.now);
    LQ.HistorySafe(Abs(s).rows[note.id], s.now);
    hide Inv, LQ.RowOk;
    forall v: LQ.Verdict
      ensures LQ.Ruling(note.attempt, v) in rulings <==> v == rulings[k].verdict
    {
      if LQ.Ruling(note.attempt, v) in rulings {
        var j :| 0 <= j < |rulings| && rulings[j] == LQ.Ruling(note.attempt, v);
        assert j == k;
      }
      assert rulings[k] == LQ.Ruling(note.attempt, rulings[k].verdict);
    }
  }

  // In every run each attempt of a message publishes at most one event, of whatever type, and
  // no two publications share an event id.
  lemma PublishedOnce(s: State, steps: seq<Step>, ceiling: int, i: nat, j: nat)
    requires Init(s) && Valid(s, steps, ceiling)
    requires i < j < |Exec(s, steps, ceiling).published|
    ensures var log := Exec(s, steps, ceiling).published;
            && (log[i].id != log[j].id || log[i].attempt != log[j].attempt)
            && EventId(log[i]) != EventId(log[j])
  {
    RunEvents(s, steps, ceiling);
    var log := Exec(s, steps, ceiling).published;
    if EventId(log[i]) == EventId(log[j]) {
      EventIdInjective(log[i], log[j]);
    }
  }

  // ---- Events that are lost ----

  // The attempt was made, and no worker has it in its batch any more.
  ghost predicate Gone(s: State, job: Job) {
    && job.id in s.messages && job.attempts <= s.messages[job.id].attempts
    && forall w: nat, i: nat :: HasJob(s, w, i) ==> s.workers[w].batch[i] != job
  }

  lemma StepGone(s: State, step: Step, ceiling: int, job: Job)
    requires Enabled(s, step, ceiling) && Gone(s, job) && Absent(s.published, job)
    ensures Gone(Next(s, step, ceiling), job) && Absent(Next(s, step, ceiling).published, job)
  {
    hide Encode, MarkFor, JsonString.EventDetail, IsClaim;
    var t := Next(s, step, ceiling);
    forall w: nat, i: nat | HasJob(t, w, i)
      ensures t.workers[w].batch[i] != job
    {
      if step.Claim? && w == step.w {
        assert t.workers[w].batch[i].id == step.picks[i];
      } else {
        assert HasJob(s, w, Before(s, t, w, i));
      }
    }
    if step.Publish? {
      assert HasJob(s, step.w, 0);
    }
  }

  lemma {:induction false} GoneForGood(s: State, steps: seq<Step>, ceiling: int, job: Job)
    requires Valid(s, steps, ceiling) && Gone(s, job) && Absent(s.published, job)
    ensures Gone(Exec(s, steps, ceiling), job) && Absent(Exec(s, steps, ceiling).published, job)
    decreases |steps|
  {
    if steps != [] {
      GoneForGood(s, steps[..|steps| - 1], ceiling, job);
      StepGone(Exec(s, steps[..|steps| - 1], ceiling), steps[|steps| - 1], ceiling, job);
    }
  }

  // The attempt's worker crashes, one of its three statements does not go well, or the batch
  // it was claimed in never reached a worker.
  ghost predicate LosesEvent(s: State, step: Step, ceiling: int, job: Job)
    requires Enabled(s, step, ceiling)
  {
    match step
    case Crash(w) => exists i: nat :: HasJob(s, w, i) && s.workers[w].batch[i] == job
    case Mark(w, _, write) => !write.Written? && s.workers[w].batch[0] == job
    case Record(w, write) => !write.Written? && s.workers[w].batch[0] == job
    case Publish(w, done) => !done && s.workers[w].batch[0] == job
    case Claim(_, picks, _, received) => !received && job.id in picks && job.attempts == s.messages[job.id].attempts + 1
    case _ => false
  }

  lemma LossIsGone(s: State, step: Step, ceiling: int, job: Job)
    requires Enabled(s, step, ceiling) && Once(s) && LosesEvent(s, step, ceiling, job) && !step.Claim?
    ensures Gone(Next(s, step, ceiling), job) && Absent(Next(s, step, ceiling).published, job)
  {
    hide Encode, MarkFor, JsonString.EventDetail;
    var t := Next(s, step, ceiling);
    var i0: nat :| HasJob(s, step.w, i0) && s.workers[step.w].batch[i0] == job && (step.Crash? || i0 == 0);
    assert JobOk(s, step.w, i0);
    forall w: nat, i: nat | HasJob(t, w, i)
      ensures t.workers[w].batch[i] != job
    {
      var i1 := Before(s, t, w, i);
      assert HasJob(s, w, i1) && s.workers[w].batch[i1] == t.workers[w].batch[i];
    }
  }

  lemma LostClaimIsGone(s: State, step: Step, ceiling: int, job: Job)
    requires Enabled(s, step, ceiling) && Once(s) && LosesEvent(s, step, ceiling, job) && step.Claim?
    ensures Gone(Next(s, step, ceiling), job) && Absent(Next(s, step, ceiling).published, job)
  {
    var t := Next(s, step, ceiling);
    forall w: nat, i: nat | HasJob(t, w, i)
      ensures t.workers[w].batch[i] != job
    {
      assert HasJob(s, w, i) && JobOk(s, w, i);
    }
  }

  // An attempt that loses its event on the way publishes none, however the run goes on:
  // nothing repeats the call.
  lemma EventLost(init: State, start: seq<Step>, step: Step, more: seq<Step>, ceiling: int, job: Job)
    requires Init(init) && Valid(init, start, ceiling) && Enabled(Exec(init, start, ceiling), step, ceiling)
    requires LosesEvent(Exec(init, start, ceiling), step, ceiling, job)
    requires Valid(Next(Exec(init, start, ceiling), step, ceiling), more, ceiling)
    ensures Absent(Exec(Next(Exec(init, start, ceiling), step, ceiling), more, ceiling).published, job)
  {
    RunEvents(init, start, ceiling);
    hide *;
    var s := Exec(init, start, ceiling);
    if step.Claim? {
      LostClaimIsGone(s, step, ceiling, job);
    } else {
      LossIsGone(s, step, ceiling, job);
    }
    GoneForGood(Next(s, step, ceiling), more, ceiling, job);
  }

  // Some worker has the attempt in its batch.
  ghost predicate InWork(s: State, job: Job) {
    exists w: nat, i: nat :: HasJob(s, w, i) && s.workers[w].batch[i] == job
  }

  predicate Made(s: State, job: Job) {
    job.id in s.messages && 1 <= job.attempts <= s.messages[job.id].attempts
  }

  // The attempt was made, and its event is neither published nor on the way.
  ghost predicate Lost(s: State, job: Job) {
    Made(s, job) && !InWork(s, job) && Absent(s.published, job)
  }

  // A batch keeps all but its first attempt, and that one too unless the step is done with it.
  lemma WorkStays(s: State, step: Step, ceiling: int, w: nat, i: nat)
    requires Enabled(s, step, ceiling) && !step.Claim? && HasJob(s, w, i) && !LosesEvent(s, step, ceiling, s.workers[w].batch[i])
    requires !(step.Publish? && step.w == w && i == 0)
    ensures InWork(Next(s, step, ceiling), s.workers[w].batch[i])
  {
    hide Encode, MarkFor, CanMark, MarkRow, JsonString.EventDetail;
    var t, job := Next(s, step, ceiling), s.workers[w].batch[i];
    var j := if t.workers[w].Working? && |t.workers[w].batch| < |s.workers[w].batch| then i - 1 else i;
    assert HasJob(t, w, j) && t.workers[w].batch[j] == job;
  }

  lemma ClaimedIsInWork(s: State, step: Step, ceiling: int, job: Job)
    requires Shape(s) && Enabled(s, step, ceiling) && step.Claim? && step.received
    requires job.id in step.picks && job.attempts == s.messages[job.id].attempts + 1
    ensures InWork(Next(s, step, ceiling), job)
  {
    hide IsClaim, RowShape, CanMark, MarkFor;
    var t := Next(s, step, ceiling);
    PicksDiffer(s, step, ceiling);
    var i :| 0 <= i < |step.picks| && step.picks[i] == job.id;
    assert HasJob(t, step.w, i) && t.workers[step.w].batch[i] == job;
  }

  // Nothing but a loss loses an event.
  lemma OnlyLossLoses(s: State, step: Step, ceiling: int, job: Job)
    requires Shape(s) && Enabled(s, step, ceiling) && Made(Next(s, step, ceiling), job)
    requires !Lost(s, job) && !LosesEvent(s, step, ceiling, job)
    ensures InWork(Next(s, step, ceiling), job) || !Absent(Next(s, step, ceiling).published, job)
  {
    hide Encode, MarkFor, CanMark, IsClaim, RowShape, JsonString.EventDetail, InWork;
    var t := Next(s, step, ceiling);
    assert s.published <= t.published;
    if !Made(s, job) {
      assert step.Claim?;
      ClaimedIsInWork(s, step, ceiling, job);
    } else if Absent(s.published, job) {
      WorkGoesOn(s, step, ceiling, job);
    }
  }

  lemma WorkGoesOn(s: State, step: Step, ceiling: int, job: Job)
    requires Enabled(s, step, ceiling) && InWork(s, job) && !LosesEvent(s, step, ceiling, job)
    ensures InWork(Next(s, step, ceiling), job) || !Absent(Next(s, step, ceiling).published, job)
  {
    hide Encode, MarkFor, CanMark, MarkRow, IsClaim, JsonString.EventDetail;
    var t := Next(s, step, ceiling);
    var w: nat, i: nat :| HasJob(s, w, i) && s.workers[w].batch[i] == job;
    if step.Claim? {
      assert HasJob(t, w, i) && t.workers[w].batch[i] == job;
    } else if step.Publish? && step.w == w && i == 0 {
      assert SameClaim(t.published[|s.published|], job);
    } else {
      WorkStays(s, step, ceiling, w, i);
    }
  }

  // An attempt's event is lost after a step exactly if it was before or the step loses it.
  lemma LostStep(s: State, step: Step, ceiling: int, job: Job)
    requires Shape(s) && Once(s) && Enabled(s, step, ceiling) && job.attempts >= 1
    ensures Lost(Next(s, step, ceiling), job) <==> Lost(s, job) || LosesEvent(s, step, ceiling, job)
  {
    hide Shape, Once, Enabled, Next, LosesEvent, Absent;
    if Lost(s, job) {
      StepGone(s, step, ceiling, job);
    } else if LosesEvent(s, step, ceiling, job) {
      if step.Claim? {
        LostClaimIsGone(s, step, ceiling, job);
      } else {
        LossIsGone(s, step, ceiling, job);
      }
    } else if Made(Next(s, step, ceiling), job) {
      OnlyLossLoses(s, step, ceiling, job);
    }
  }

  ghost predicate LosesEventAt(s: State, steps: seq<Step>, i: nat, ceiling: int, job: Job)
    requires Valid(s, steps, ceiling) && i < |steps|
  {
    ValidPrefix(s, steps, i, ceiling);
    ValidPrefix(s, steps, i + 1, ceiling);
    assert steps[..i + 1][..i] == steps[..i];
    LosesEvent(Exec(s, steps[..i], ceiling), steps[i], ceiling, job)
  }

  lemma LosesEventSplit(s: State, steps: seq<Step>, ceiling: int, job: Job)
    requires Valid(s, steps, ceiling) && steps != []
    ensures var before, n := steps[..|steps| - 1], |steps| - 1;
            && (LosesEventAt(s, steps, n, ceiling, job) <==> LosesEvent(Exec(s, before, ceiling), steps[n], ceiling, job))
            && forall i: nat :: i < n ==> (LosesEventAt(s, steps, i, ceiling, job) <==> LosesEventAt(s, before, i, ceiling, job))
  {
    hide LosesEvent, Enabled, Next;
    var before, n := steps[..|steps| - 1], |steps| - 1;
    forall i: nat | i < n
      ensures LosesEventAt(s, steps, i, ceiling, job) <==> LosesEventAt(s, before, i, ceiling, job)
    {
      assert before[..i] == steps[..i];
    }
  }

  // Over whole runs from the empty queue: every attempt made is published, in some worker's
  // hands or lost, and it is lost exactly if some step of the run lost it.
  lemma {:induction false} LostExactly(s: State, steps: seq<Step>, ceiling: int, job: Job)
    requires Init(s) && Valid(s, steps, ceiling) && job.attempts >= 1
    ensures var t := Exec(s, steps, ceiling);
            Lost(t, job) <==> exists i: nat :: i < |steps| && LosesEventAt(s, steps, i, ceiling, job)
    decreases |steps|
  {
    if steps != [] {
      var before, n := steps[..|steps| - 1], |steps| - 1;
      LostExactly(s, before, ceiling, job);
      RunEvents(s, before, ceiling);
      hide Once, Truthful, Lost, Enabled, Next, LosesEventAt, LQ.Inv, RowShape;
      LostStep(Exec(s, before, ceiling), steps[n], ceiling, job);
      LosesEventSplit(s, steps, ceiling, job);
    }
  }

  // So an attempt made and in nobody's hands has published its event exactly if no step lost
  // it, and then exactly one.
  lemma PublishedExactly(s: State, steps: seq<Step>, ceiling: int, job: Job)
    requires Init(s) && Valid(s, steps, ceiling) && Made(Exec(s, steps, ceiling), job) && !InWork(Exec(s, steps, ceiling), job)
    ensures var log := Exec(s, steps, ceiling).published;
            (exists i :: 0 <= i < |log| && SameClaim(log[i], job) && forall j :: 0 <= j < |log| && SameClaim(log[j], job) ==> j == i)
            <==> forall i: nat :: i < |steps| ==> !LosesEventAt(s, steps, i, ceiling, job)
  {
    LostExactly(s, steps, ceiling, job);
    RunEvents(s, steps, ceiling);
    hide Truthful, LosesEventAt, LogKnown, JobOk, Valid, Exec, Inv, InWork;
    var log := Exec(s, steps, ceiling).published;
    if i :| 0 <= i < |log| && SameClaim(log[i], job) {
      forall j | 0 <= j < |log| && SameClaim(log[j], job)
        ensures j == i
      {
        assert log[i].id == log[j].id && log[i].attempt == log[j].attempt;
      }
    }
  }

  lemma SentNote(s: State, note: Note)
    requires Inv(s) && Supported(s.history, note) && note.kind == SENT
    ensures note.id in s.history && s.history[note.id].rulings != []
    ensures s.history[note.id].rulings[|s.history[note.id].rulings| - 1] == LQ.Ruling(note.attempt, LQ.Accepted)
  {
    var k :| 0 <= k < |s.history[note.id].rulings| && s.history[note.id].rulings[k].attempt == note.attempt &&
             note.kind == EventFor(s.history[note.id].rulings[k].verdict, note.attempt);
    EventForKinds(s.history[note.id].rulings[k].verdict, note.attempt);
    hide EventFor;
    assert LQ.RowOk(Abs(s).rows[note.id], s.now);
    LQ.HistorySafe(Abs(s).rows[note.id], s.now);
  }

  lemma SameSentNote(s: State, i: nat, j: nat)
    requires Inv(s) && OncePerClaim(s.recorded) && i < |s.recorded| && j < |s.recorded|
    requires Supported(s.history, s.recorded[i]) && Supported(s.history, s.recorded[j])
    requires s.recorded[i].kind == SENT && s.recorded[j].kind == SENT && s.recorded[i].id == s.recorded[j].id
    ensures i == j
  {
    hide Inv, Supported;
    SentNote(s, s.recorded[i]);
    SentNote(s, s.recorded[j]);
  }

  lemma SentOnceIn(s: State, i: nat)
    requires Inv(s) && Once(s) && Truthful(s) && i < |s.events| && s.events[i].kind == SENT
    ensures var id := s.events[i].messageId;
            && id in s.history && s.history[id].rulings != []
            && s.history[id].rulings[|s.history[id].rulings| - 1].verdict == LQ.Accepted
            && forall j :: 0 <= j < |s.events| && s.events[j].kind == SENT && s.events[j].messageId == id ==> j == i
  {
    assert OncePerClaim(s.recorded);
    hide Inv, Supported, Once, OncePerClaim;
    SentNote(s, s.recorded[i]);
    forall j | 0 <= j < |s.events| && s.events[j].kind == SENT && s.events[j].messageId == s.events[i].messageId
      ensures j == i
    {
      SameSentNote(s, i, j);
    }
  }

  // In every run, a message has at most one 'email.sent' event, and only if the engine
  // accepted it: the ceiling never counts a message twice.
  lemma SentOnce(s: State, steps: seq<Step>, ceiling: int, i: nat)
    requires Init(s) && Valid(s, steps, ceiling)
    requires i < |Exec(s, steps, ceiling).events| && Exec(s, steps, ceiling).events[i].kind == SENT
    ensures var t := Exec(s, steps, ceiling);
            var id := t.events[i].messageId;
            && id in t.history && t.history[id].rulings != []
            && t.history[id].rulings[|t.history[id].rulings| - 1].verdict == LQ.Accepted
            && forall j :: 0 <= j < |t.events| && t.events[j].kind == SENT && t.events[j].messageId == id ==> j == i
  {
    RunEvents(s, steps, ceiling);
    hide *;
    SentOnceIn(Exec(s, steps, ceiling), i);
  }
}
