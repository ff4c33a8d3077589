// When a message is claimed: exactly when it waits in the queue and its time has come.
module DeliveryRetry {
  import opened Prelude
  import opened Utf8
  import opened Backoff
  import opened MessageQueue
  import opened DeliveryProtocol
  import JsonString
  import LQ = LeaseQueue

  // The claim's filter is the lease queue's in every reachable state: the test of the lock
  // column adds nothing.
  lemma DueIsClaimable(s: State, id: Id)
    requires Inv(s) && id in s.messages
    ensures Due(s.messages[id], s.now) <==> LQ.Claimable(Abs(s).rows[id], s.now)
  {
    assert RowShape(s.messages[id], s.now);
    hide LQ.Inv;
  }

  predicate Waiting(s: State, id: Id) {
    id in s.messages && s.messages[id].status in {Queued, Deferred}
  }

  // A claim that is not full takes a waiting message that is not row-locked exactly if the
  // message has no time or its time has come.
  lemma TakenWhenDue(s: State, step: Step, ceiling: int, id: Id)
    requires Inv(s) && Enabled(s, step, ceiling) && step.Claim? && Waiting(s, id) && id !in step.busy && |step.picks| < 10
    ensures id in step.picks <==> (s.messages[id].scheduledAt.None? || s.messages[id].scheduledAt.value <= s.now)
  {
    assert RowShape(s.messages[id], s.now);
    hide LQ.Inv;
  }

  // Nothing but a claim touches a waiting message.
  lemma WaitsStep(s: State, step: Step, ceiling: int, id: Id)
    requires Inv(s) && Enabled(s, step, ceiling) && Waiting(s, id) && !(step.Claim? && id in step.picks)
    ensures id in Next(s, step, ceiling).messages && Next(s, step, ceiling).messages[id] == s.messages[id]
  {
    if step.Mark? {
      HolderHasRow(s, step.w);
    }
    hide LQ.Inv, Encode, Truncate, MarkFor, CanMark, JsonString.EventDetail, RowShape, IsClaim, MarkRow, ClaimRow;
  }

  ghost predicate Unclaimed(steps: seq<Step>, id: Id) {
    forall i :: 0 <= i < |steps| && steps[i].Claim? ==> id !in steps[i].picks
  }

  lemma {:induction false} Waits(s: State, steps: seq<Step>, ceiling: int, id: Id)
    requires Inv(s) && Valid(s, steps, ceiling) && Waiting(s, id) && Unclaimed(steps, id)
    ensures Inv(Exec(s, steps, ceiling))
    ensures id in Exec(s, steps, ceiling).messages && Exec(s, steps, ceiling).messages[id] == s.messages[id]
    decreases |steps|
  {
    hide Inv, Enabled, Next;
    if steps != [] {
      var before, last := steps[..|steps| - 1], steps[|steps| - 1];
      Waits(s, before, ceiling, id);
      WaitsStep(Exec(s, before, ceiling), last, ceiling, id);
      StepSimulates(Exec(s, before, ceiling), last, ceiling);
    }
  }

  // What the mark of a temporary refusal leaves, before the eighth attempt.
  lemma DeferredRow(s: State, step: Step, ceiling: int)
    requires Inv(s) && Enabled(s, step, ceiling) && step.Mark? && !step.write.Refused?
    requires s.workers[step.w].stage.reply.Temporary? && s.workers[step.w].batch[0].attempts < 8
    ensures var t, job := Next(s, step, ceiling), s.workers[step.w].batch[0];
            && job.id in t.messages && t.messages[job.id].status == Deferred
            && t.messages[job.id].scheduledAt == Some(step.clock + Min(MINUTE * Pow2(if job.attempts < 1 then 0 else job.attempts - 1), 6 * HOUR))
  {
    HolderHasRow(s, step.w);
    DelayLaw(s.workers[step.w].batch[0].attempts);
    hide Inv, Encode, Truncate, CanMark, Delay, Pow2;
  }

  // The retry. A message the engine refused for the time being on an attempt before the eighth
  // waits min(2^(attempt-1) minutes, 6 hours) from the moment its worker wrote that. The next
  // claim that has room for it and does not find it row-locked takes it if that time has come,
  // and only then.
  lemma Retried(s: State, mark: Step, steps: seq<Step>, claim: Step, ceiling: int)
    requires Inv(s) && Enabled(s, mark, ceiling) && mark.Mark? && !mark.write.Refused?
    requires s.workers[mark.w].stage.reply.Temporary? && s.workers[mark.w].batch[0].attempts < 8
    requires Valid(Next(s, mark, ceiling), steps, ceiling) && Unclaimed(steps, s.workers[mark.w].batch[0].id)
    requires Enabled(Exec(Next(s, mark, ceiling), steps, ceiling), claim, ceiling) && claim.Claim?
    requires s.workers[mark.w].batch[0].id !in claim.busy && |claim.picks| < 10
    ensures var job, u := s.workers[mark.w].batch[0], Exec(Next(s, mark, ceiling), steps, ceiling);
            job.id in claim.picks <==>
            u.now >= mark.clock + Min(MINUTE * Pow2(if job.attempts < 1 then 0 else job.attempts - 1), 6 * HOUR)
  {
    DeferredRow(s, mark, ceiling);
    StepSimulates(s, mark, ceiling);
    hide *;
    var t, id := Next(s, mark, ceiling), s.workers[mark.w].batch[0].id;
    IsWaiting(t, id);
    Waits(t, steps, ceiling, id);
    IsWaiting(Exec(t, steps, ceiling), id);
    TakenWhenDue(Exec(t, steps, ceiling), claim, ceiling, id);
  }

  lemma IsWaiting(s: State, id: Id)
    ensures Waiting(s, id) <==> id in s.messages && s.messages[id].status in {Queued, Deferred}
  {
  }
}
