// What the engine's answers lead to: the row each leaves, the events they record, and what an
// event says of its message from then on.
module DeliveryNotes {
  import opened Prelude
  import opened Utf8
  import opened Backoff
  import opened MessageQueue
  import opened DeliveryProtocol
  import opened DeliveryEvents
  import DeliverySafety
  import JsonString
  import LQ = LeaseQueue

  // ---- The answers ----

  // What a mark leaves of a row: status, retry time and last error; it takes the lock off and
  // changes nothing else.
  ghost predicate Leaves(m: Message, mark: Mark, status: Status, scheduledAt: Option<int>, lastError: Option<Bytes>) {
    MarkRow(m, mark) == Message(status, m.attempts, scheduledAt, None, lastError, m.createdAt, m.recipients)
  }

  // The whole table of answers. The detail of the event and of the webhook is the full text;
  // the row keeps its first 500 bytes.
  lemma AnswerTable(reply: Reply, reason: Bytes, attempts: nat, clock: int, m: Message)
    ensures var mark := MarkFor(reply, reason, attempts, clock);
            match reply
            case Sent =>
              KindOf(mark) == "email.sent" && DetailOf(mark) == [] && Leaves(m, mark, Status.Sent, m.scheduledAt, None)
            case Permanent =>
              && KindOf(mark) == "email.failed" && DetailOf(mark) == reason
              && Leaves(m, mark, Failed, m.scheduledAt, Some(Truncate(reason, 500)))
            case Unsigned =>
              var text := Encode("could not sign message: ") + reason;
              && KindOf(mark) == "email.failed" && DetailOf(mark) == text
              && Leaves(m, mark, Failed, m.scheduledAt, Some(Truncate(text, 500)))
            case Temporary =>
              if attempts < 8 then
                && KindOf(mark) == "email.deferred" && DetailOf(mark) == reason
                && Leaves(m, mark, Deferred, Some(clock + Min(MINUTE * Pow2(if attempts < 1 then 0 else attempts - 1), 6 * HOUR)),
                          Some(Truncate(reason, 500)))
              else
                var text := Encode("gave up after repeated temporary failures: ") + reason;
                && KindOf(mark) == "email.failed" && DetailOf(mark) == text
                && Leaves(m, mark, Failed, m.scheduledAt, Some(Truncate(text, 500)))
  {
    DelayLaw(attempts);
    hide Encode, Truncate, Delay, Pow2;
  }

  // ---- What an event says of its message ----

  // 'sent' and 'failed' are the last word; after 'deferred' the message waits for its retry, or
  // has had a later attempt.
  predicate Agrees(m: Message, kind: string, attempt: nat) {
    && (kind == "email.sent" ==> m.status == Status.Sent && m.attempts == attempt)
    && (kind == "email.failed" ==> m.status == Failed && m.attempts == attempt)
    && (kind == "email.deferred" ==> m.attempts > attempt || (m.status == Deferred && m.attempts == attempt))
  }

  predicate Stands(messages: map<Id, Message>, note: Note) {
    note.id in messages && Agrees(messages[note.id], note.kind, note.attempt)
  }

  ghost predicate AllStand(s: State) {
    && (forall note :: note in s.recorded ==> Stands(s.messages, note))
    && (forall note :: note in s.published ==> Stands(s.messages, note))
    && (forall w :: 0 <= w < |s.workers| && Active(s, w) && (s.workers[w].stage.Marked? || s.workers[w].stage.Recorded?) ==>
          Stands(s.messages, NoteOf(s, w)))
  }

  // A row another statement writes is claimed from the queue, or in its writer's hands.
  lemma StillStands(s: State, step: Step, ceiling: int, note: Note)
    requires Inv(s) && Enabled(s, step, ceiling) && Stands(s.messages, note)
    ensures Stands(Next(s, step, ceiling).messages, note)
  {
    hide LQ.Inv, Encode, Truncate, MarkFor, CanMark, JsonString.EventDetail, RowShape;
    EventForKinds(LQ.Accepted, note.attempt);
    EventForKinds(LQ.Rejected, note.attempt);
    if step.Mark? {
      HolderHasRow(s, step.w);
    }
  }

  // The note of a mark just written stands.
  lemma NewStands(s: State, step: Step, ceiling: int)
    requires Inv(s) && Enabled(s, step, ceiling) && step.Mark? && step.write.Written?
    ensures var t := Next(s, step, ceiling);
            Active(t, step.w) && t.workers[step.w].stage.Marked? && Stands(t.messages, NoteOf(t, step.w))
  {
    hide Inv, MarkFor, KindOf, DetailOf, Encode, Truncate, MarkRow, Agrees, CanMark;
    var job, stage := s.workers[step.w].batch[0], s.workers[step.w].stage;
    HolderHasRow(s, step.w);
    MarkedNote(s, step, ceiling);
    AnswerAgrees(stage.reply, stage.reason, step.clock, s.messages[job.id]);
  }

  lemma AnswerAgrees(reply: Reply, reason: Bytes, clock: int, m: Message)
    ensures var mark := MarkFor(reply, reason, m.attempts, clock);
            Agrees(MarkRow(m, mark), KindOf(mark), m.attempts)
  {
    hide MarkFor, KindOf, DetailOf, MarkRow, Encode, Truncate, Pow2;
    AnswerTable(reply, reason, m.attempts, clock, m);
    EventForKinds(LQ.Accepted, m.attempts);
    EventForKinds(LQ.Rejected, m.attempts);
    EventForKinds(LQ.TryLater, 1);
  }

  lemma LogsStand(s: State, step: Step, ceiling: int)
    requires Inv(s) && Enabled(s, step, ceiling) && AllStand(s)
    ensures var t := Next(s, step, ceiling);
            && (forall note :: note in t.recorded ==> Stands(t.messages, note))
            && (forall note :: note in t.published ==> Stands(t.messages, note))
  {
    hide Inv, Encode, MarkFor, CanMark, IsClaim, JsonString.EventDetail, Stands, ClaimRows, MarkRows;
    var t := Next(s, step, ceiling);
    forall note | Stands(s.messages, note)
      ensures Stands(t.messages, note)
    {
      StillStands(s, step, ceiling, note);
    }
  }

  lemma StageStands(s: State, step: Step, ceiling: int, w: nat)
    requires Inv(s) && Enabled(s, step, ceiling) && AllStand(s)
    requires var t := Next(s, step, ceiling); Active(t, w) && (t.workers[w].stage.Marked? || t.workers[w].stage.Recorded?)
    ensures Stands(Next(s, step, ceiling).messages, NoteOf(Next(s, step, ceiling), w))
  {
    hide Inv, Encode, MarkFor, CanMark, IsClaim, JsonString.EventDetail, Stands, ClaimRows, MarkRows;
    var t := Next(s, step, ceiling);
    if step.Mark? && step.w == w {
      NewStands(s, step, ceiling);
    } else {
      assert Active(s, w) && (s.workers[w].stage.Marked? || s.workers[w].stage.Recorded?);
      assert NoteOf(t, w) == NoteOf(s, w);
      StillStands(s, step, ceiling, NoteOf(s, w));
    }
  }

  lemma {:induction false} RunStands(s: State, steps: seq<Step>, ceiling: int)
    requires Init(s) && Valid(s, steps, ceiling)
    ensures Inv(Exec(s, steps, ceiling)) && AllStand(Exec(s, steps, ceiling))
    decreases |steps|
  {
    hide Stands, Next, Enabled, Inv;
    InitInv(s);
    if steps != [] {
      var before, last := steps[..|steps| - 1], steps[|steps| - 1];
      RunStands(s, before, ceiling);
      var u, t := Exec(s, before, ceiling), Exec(s, steps, ceiling);
      StepSimulates(u, last, ceiling);
      LogsStand(u, last, ceiling);
      forall w | 0 <= w < |t.workers| && Active(t, w) && (t.workers[w].stage.Marked? || t.workers[w].stage.Recorded?)
        ensures Stands(t.messages, NoteOf(t, w))
      {
        StageStands(u, last, ceiling, w);
      }
    }
  }

  // In every run, once 'email.sent' or 'email.failed' of a message is recorded or published the
  // row has that status, the attempt was its last, and it stays so: it is claimed no more.
  lemma FinalEventIsLast(s: State, steps: seq<Step>, more: seq<Step>, ceiling: int, note: Note)
    requires Init(s) && Valid(s, steps, ceiling) && Valid(Exec(s, steps, ceiling), more, ceiling)
    requires note in Exec(s, steps, ceiling).recorded || note in Exec(s, steps, ceiling).published
    requires note.kind in {"email.sent", "email.failed"}
    ensures var t := Exec(Exec(s, steps, ceiling), more, ceiling);
            && note.id in t.messages && t.messages[note.id].attempts == note.attempt
            && t.messages[note.id].status == if note.kind == "email.sent" then Status.Sent else Failed
    ensures forall i :: 0 <= i < |more| && more[i].Claim? ==> note.id !in more[i].picks
  {
    RunStands(s, steps, ceiling);
    hide Valid, Exec, Inv, Enabled, Next;
    var u := Exec(s, steps, ceiling);
    DeliverySafety.FinishedForever(u, more, ceiling, note.id);
    forall i | 0 <= i < |more| && more[i].Claim?
      ensures note.id !in more[i].picks
    {
      NotClaimed(u, more, ceiling, note.id, i);
    }
  }

  lemma NotClaimed(s: State, steps: seq<Step>, ceiling: int, id: Id, i: nat)
    requires Inv(s) && Valid(s, steps, ceiling) && id in s.messages && s.messages[id].status in {Status.Sent, Failed}
    requires i < |steps| && steps[i].Claim?
    ensures id !in steps[i].picks
  {
    ValidPrefix(s, steps, i, ceiling);
    ValidPrefix(s, steps, i + 1, ceiling);
    assert steps[..i + 1][..i] == steps[..i];
    DeliverySafety.FinishedForever(s, steps[..i], ceiling, id);
    hide Inv, Next;
  }
}
