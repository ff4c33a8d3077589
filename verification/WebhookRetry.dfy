// When a webhook delivery is claimed, and what each outcome leaves of its row.
module WebhookRetry {
  import opened Prelude
  import opened Utf8
  import opened Backoff
  import opened WebhookQueue
  import opened WebhookProtocol
  import LQ = LeaseQueue

  // The lock column is set exactly while a row is being delivered.
  ghost predicate LocksAgree(rows: map<Key, Delivery>) {
    forall k :: k in rows ==> (rows[k].lockedUntil.Some? <==> rows[k].status == Delivering)
  }

  ghost predicate Reachable(s: State) {
    Inv(s) && LocksAgree(s.deliveries)
  }

  lemma LocksStep(s: State, step: Step)
    requires Enabled(s, step) && LocksAgree(s.deliveries)
    ensures LocksAgree(Next(s, step).deliveries)
  {
    hide Encode, Truncate, CanMark, Delay, IsClaim;
  }

  lemma {:induction false} RunReachable(s: State, steps: seq<Step>)
    requires Init(s) && Valid(s, steps)
    ensures Reachable(Exec(s, steps))
    decreases |steps|
  {
    InitInv(s);
    RunRefines(s, steps);
    hide Inv, Enabled, Next;
    if steps != [] {
      RunReachable(s, steps[..|steps| - 1]);
      LocksStep(Exec(s, steps[..|steps| - 1]), steps[|steps| - 1]);
    }
  }

  // The claim's filter is the lease queue's in every reachable state: the test of the lock
  // column adds nothing.
  lemma DueIsClaimable(s: State, key: Key)
    requires Reachable(s) && key in s.deliveries
    ensures Due(s.deliveries[key], s.now) <==> LQ.Claimable(Abs(s).rows[key], s.now)
  {
    hide LQ.Inv;
  }

  // The table of outcomes.
  lemma OutcomeTable(outcome: Outcome, reason: Bytes, attempts: nat, clock: int, d: Delivery)
    ensures var after := MarkRow(d, MarkFor(outcome, reason, attempts, clock));
            var wait := Min(MINUTE * Pow2(if attempts < 1 then 0 else attempts - 1), 6 * HOUR);
            after == match outcome
                     case Delivered => d.(status := WebhookQueue.Delivered, lockedUntil := None)
                     case Drop => d.(status := Failed, lockedUntil := None, lastError := Some(Truncate(reason, 500)))
                     case Retry =>
                       if attempts < 8 then
                         d.(status := Pending, nextAttempt := clock + wait, lockedUntil := None, lastError := Some(Truncate(reason, 500)))
                       else
                         d.(status := Failed, lockedUntil := None, lastError := Some(Truncate(Encode("gave up: ") + reason, 500)))
  {
    DelayLaw(attempts);
    hide Encode, Truncate, Delay, Pow2;
  }

  predicate Waiting(s: State, key: Key) {
    key in s.deliveries && s.deliveries[key].status == Pending
  }

  // A claim that is not full takes a pending delivery that is not row-locked exactly if its
  // time has come.
  lemma TakenWhenDue(s: State, step: Step, key: Key)
    requires Reachable(s) && Enabled(s, step) && step.Claim? && Waiting(s, key) && key !in step.busy && |step.picks| < 20
    ensures key in step.picks <==> s.deliveries[key].nextAttempt <= s.now
  {
    hide LQ.Inv;
  }

  lemma WaitsStep(s: State, step: Step, key: Key)
    requires Inv(s) && Enabled(s, step) && Waiting(s, key) && !(step.Claim? && key in step.picks)
    ensures key in Next(s, step).deliveries && Next(s, step).deliveries[key] == s.deliveries[key]
  {
    if step.Settle? {
      HolderHasRow(s, step.w);
    }
    hide LQ.Inv, Encode, Truncate, MarkFor, CanMark, MarkRow, ClaimRow;
  }

  ghost predicate Unclaimed(steps: seq<Step>, key: Key) {
    forall i :: 0 <= i < |steps| && steps[i].Claim? ==> key !in steps[i].picks
  }

  lemma {:induction false} Waits(s: State, steps: seq<Step>, key: Key)
    requires Reachable(s) && Valid(s, steps) && Waiting(s, key) && Unclaimed(steps, key)
    ensures Reachable(Exec(s, steps)) && key in Exec(s, steps).deliveries && Exec(s, steps).deliveries[key] == s.deliveries[key]
    decreases |steps|
  {
    hide Inv, Enabled, Next;
    if steps != [] {
      var before, last := steps[..|steps| - 1], steps[|steps| - 1];
      Waits(s, before, key);
      WaitsStep(Exec(s, before), last, key);
      StepSimulates(Exec(s, before), last);
      LocksStep(Exec(s, before), last);
    }
  }

  lemma RetryRow(s: State, step: Step)
    requires Inv(s) && Enabled(s, step) && step.Settle? && !step.write.Refused?
    requires s.dispatchers[step.w].answer.value.outcome.Retry? && s.dispatchers[step.w].batch[0].attempts < 8
    ensures var t, job := Next(s, step), s.dispatchers[step.w].batch[0];
            && Waiting(t, job.key)
            && t.deliveries[job.key].nextAttempt == step.clock + Min(MINUTE * Pow2(if job.attempts < 1 then 0 else job.attempts - 1), 6 * HOUR)
  {
    HolderHasRow(s, step.w);
    var job, reply := s.dispatchers[step.w].batch[0], s.dispatchers[step.w].answer.value;
    OutcomeTable(reply.outcome, reply.reason, job.attempts, step.clock, s.deliveries[job.key]);
    hide Inv, Encode, Truncate, CanMark, MarkFor, MarkRow, Pow2;
  }

  // The retry. A delivery to be tried again on an attempt before the eighth waits
  // min(2^(attempt-1) minutes, 6 hours); the next claim with room that does not find it
  // row-locked takes it if that time has come, and only then.
  lemma Retried(s: State, settle: Step, steps: seq<Step>, claim: Step)
    requires Reachable(s) && Enabled(s, settle) && settle.Settle? && !settle.write.Refused?
    requires s.dispatchers[settle.w].answer.value.outcome.Retry? && s.dispatchers[settle.w].batch[0].attempts < 8
    requires Valid(Next(s, settle), steps) && Unclaimed(steps, s.dispatchers[settle.w].batch[0].key)
    requires Enabled(Exec(Next(s, settle), steps), claim) && claim.Claim?
    requires s.dispatchers[settle.w].batch[0].key !in claim.busy && |claim.picks| < 20
    ensures var job, u := s.dispatchers[settle.w].batch[0], Exec(Next(s, settle), steps);
            job.key in claim.picks <==>
            u.now >= settle.clock + Min(MINUTE * Pow2(if job.attempts < 1 then 0 else job.attempts - 1), 6 * HOUR)
  {
    RetryRow(s, settle);
    StepSimulates(s, settle);
    LocksStep(s, settle);
    assert Reachable(Next(s, settle));
    hide *;
    var t, key := Next(s, settle), s.dispatchers[settle.w].batch[0].key;
    IsWaiting(t, key);
    Waits(t, steps, key);
    IsWaiting(Exec(t, steps), key);
    TakenWhenDue(Exec(t, steps), claim, key);
  }

  lemma IsWaiting(s: State, key: Key)
    ensures Waiting(s, key) <==> key in s.deliveries && s.deliveries[key].status == Pending
  {
  }
}
