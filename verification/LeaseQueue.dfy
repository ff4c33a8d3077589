// The lease protocol shared by the message queue and the webhook queue.
//
// Workers claim ready rows in batches, get one verdict per attempt from an outside
// service, and write the outcome back with an UPDATE that names the row by id alone: no
// status guard, no check that the claim is still theirs. What makes that safe is a global
// invariant about who holds which row. It is proved here once, over every interleaving of
// any number of workers with crashes, failed writes and time passing; MessageQueue and
// WebhookQueue refine their own tables to this one.
module LeaseQueue {
  import opened Prelude
  import opened Backoff

  // The retry chain ends at this many claims, in both queues.
  const MAX_ATTEMPTS := 8

  datatype Status = Ready | Leased | Done | Dead

  datatype Verdict = Accepted | Rejected | TryLater

  datatype Ruling = Ruling(attempt: nat, verdict: Verdict)

  // `owner`, `grants` and `rulings` are history: the worker last granted the row, the time
  // of every grant, and every verdict reached. No step's guard reads them.
  datatype Row = Row(status: Status, attempts: nat, due: int, owner: nat, grants: seq<int>, rulings: seq<Ruling>)

  datatype Lease<K> = Lease(key: K, attempt: nat)

  datatype Answer = Answer(verdict: Verdict, at: int)

  // What one worker still has to settle; `answer` is the verdict on the first lease.
  datatype Holder<K> = Holder(leases: seq<Lease<K>>, answer: Option<Answer>)

  datatype State<K> = State(now: int, rows: map<K, Row>, holders: seq<Holder<K>>)

  // Received == false: the claim was committed but its result never reached the worker.
  datatype Step<K> =
    | Pass(d: nat)
    | Insert(added: set<K>, due: int)
    | Grant(w: nat, keys: seq<K>, received: bool)
    | Rule(w: nat, verdict: Verdict)
    | Settle(w: nat, clock: int)
    | Drop(w: nat)
    | Crash(w: nat)

  function Released<K>(): Holder<K> {
    Holder([], None)
  }

  predicate Claimable(row: Row, now: int) {
    row.status == Ready && row.due <= now
  }

  ghost predicate Busy<K(!new)>(s: State<K>, w: nat) {
    w < |s.holders| && s.holders[w].leases != []
  }

  ghost predicate Enabled<K(!new)>(s: State<K>, step: Step<K>) {
    match step
    case Pass(_) => true
    case Insert(keys, _) => forall k :: k in keys ==> k !in s.rows
    case Grant(w, keys, _) =>
      && w < |s.holders| && s.holders[w].leases == []
      && Distinct(keys)
      && forall k :: k in keys ==> k in s.rows && Claimable(s.rows[k], s.now)
    case Rule(w, _) => Busy(s, w) && s.holders[w].answer.None?
    case Settle(w, clock) =>
      && Busy(s, w) && s.holders[w].answer.Some?
      && s.holders[w].leases[0].key in s.rows
      && s.holders[w].answer.value.at <= clock <= s.now
    case Drop(w) => Busy(s, w)
    case Crash(w) => w < |s.holders|
  }

  function GrantRow(row: Row, w: nat, now: int): Row {
    row.(status := Leased, attempts := row.attempts + 1, owner := w, grants := row.grants + [now])
  }

  // The worker decides from the attempt number its claim returned, never from the row.
  function SettleRow(row: Row, attempt: nat, verdict: Verdict, clock: int): Row {
    match verdict
    case Accepted => row.(status := Done)
    case Rejected => row.(status := Dead)
    case TryLater =>
      if attempt >= MAX_ATTEMPTS then row.(status := Dead)
      else row.(status := Ready, due := clock + Delay(attempt))
  }

  function LeasesOf<K>(rows: map<K, Row>, keys: seq<K>): (leases: seq<Lease<K>>)
    requires forall k :: k in keys ==> k in rows
  {
    seq(|keys|, i requires 0 <= i < |keys| => Lease(keys[i], rows[keys[i]].attempts))
  }

  ghost function Next<K(!new)>(s: State<K>, step: Step<K>): State<K>
    requires Enabled(s, step)
  {
    match step
    case Pass(d) => s.(now := s.now + d)
    case Insert(keys, due) => s.(rows := s.rows + map k | k in keys :: Row(Ready, 0, due, 0, [], []))
    case Grant(w, keys, received) =>
      var rows := map k | k in s.rows :: if k in keys then GrantRow(s.rows[k], w, s.now) else s.rows[k];
      var held := if received then Holder(LeasesOf(rows, keys), None) else Released();
      s.(rows := rows, holders := s.holders[w := held])
    case Rule(w, verdict) =>
      var lease := s.holders[w].leases[0];
      var rows := if lease.key !in s.rows then s.rows else
          s.rows[lease.key := s.rows[lease.key].(rulings := s.rows[lease.key].rulings + [Ruling(lease.attempt, verdict)])];
      s.(rows := rows, holders := s.holders[w := s.holders[w].(answer := Some(Answer(verdict, s.now)))])
    case Settle(w, clock) =>
      var lease, answer := s.holders[w].leases[0], s.holders[w].answer.value;
      s.(rows := s.rows[lease.key := SettleRow(s.rows[lease.key], lease.attempt, answer.verdict, clock)],
         holders := s.holders[w := Holder(s.holders[w].leases[1..], None)])
    case Drop(w) => s.(holders := s.holders[w := Holder(s.holders[w].leases[1..], None)])
    case Crash(w) => s.(holders := s.holders[w := Released()])
  }

  // A run: each step enabled where the steps before it lead.
  ghost predicate Valid<K(!new)>(s: State<K>, steps: seq<Step<K>>)
    decreases |steps|, 0
  {
    steps == [] ||
    (Valid(s, steps[..|steps| - 1]) && Enabled(Exec(s, steps[..|steps| - 1]), steps[|steps| - 1]))
  }

  ghost function Exec<K(!new)>(s: State<K>, steps: seq<Step<K>>): State<K>
    requires Valid(s, steps)
    decreases |steps|, 1
  {
    if steps == [] then s else Next(Exec(s, steps[..|steps| - 1]), steps[|steps| - 1])
  }

  ghost predicate Init<K(!new)>(s: State<K>) {
    s.rows == map[] && forall w :: 0 <= w < |s.holders| ==> s.holders[w] == Released()
  }

  // ---- The invariant ----

  ghost predicate RulingsOk(row: Row) {
    && (forall i :: 0 <= i < |row.rulings| ==> 1 <= row.rulings[i].attempt <= row.attempts)
    && (forall i, j :: 0 <= i < j < |row.rulings| ==> row.rulings[i].attempt < row.rulings[j].attempt)
    && (forall i :: 0 <= i < |row.rulings| - 1 ==> row.rulings[i].verdict == TryLater)
  }

  ghost predicate GrantsOk(row: Row, now: int) {
    && |row.grants| == row.attempts <= MAX_ATTEMPTS
    && (forall i :: 0 <= i < |row.grants| ==> row.grants[i] <= now)
    && (forall i :: 0 <= i < |row.grants| - 1 ==> row.grants[i] + Delay(i + 1) <= row.grants[i + 1])
  }

  // The last verdict was reached, on the current attempt.
  ghost predicate Ruled(row: Row, verdict: Verdict) {
    row.rulings != [] && row.rulings[|row.rulings| - 1] == Ruling(row.attempts, verdict)
  }

  // No verdict on the current attempt yet, and none that ended the row before.
  ghost predicate Open(row: Row) {
    forall i :: 0 <= i < |row.rulings| ==> row.rulings[i].attempt < row.attempts && row.rulings[i].verdict == TryLater
  }

  ghost predicate StatusOk(row: Row) {
    match row.status
    case Ready =>
      && row.attempts < MAX_ATTEMPTS
      && (forall i :: 0 <= i < |row.rulings| ==> row.rulings[i].verdict == TryLater)
      && (row.attempts > 0 ==> Ruled(row, TryLater) && row.grants != [] && row.grants[|row.grants| - 1] + Delay(row.attempts) <= row.due)
    case Leased => row.attempts >= 1 && (Open(row) || exists v :: Ruled(row, v))
    case Done => Ruled(row, Accepted)
    case Dead => Ruled(row, Rejected) || (Ruled(row, TryLater) && row.attempts == MAX_ATTEMPTS)
  }

  ghost predicate RowOk(row: Row, now: int) {
    GrantsOk(row, now) && RulingsOk(row) && StatusOk(row)
  }

  ghost predicate LeaseOk<K(!new)>(s: State<K>, w: nat, i: nat)
    requires w < |s.holders| && i < |s.holders[w].leases|
  {
    var holder := s.holders[w];
    var lease := holder.leases[i];
    && lease.key in s.rows
    && var row := s.rows[lease.key];
    && row.status == Leased && row.attempts == lease.attempt && row.owner == w
    && (if i == 0 && holder.answer.Some? then
          && Ruled(row, holder.answer.value.verdict)
          && holder.answer.value.at <= s.now
          && row.grants != [] && row.grants[|row.grants| - 1] <= holder.answer.value.at
        else Open(row))
  }

  ghost predicate HolderOk<K(!new)>(s: State<K>, w: nat)
    requires w < |s.holders|
  {
    && (s.holders[w].answer.Some? ==> s.holders[w].leases != [])
    && (forall i :: 0 <= i < |s.holders[w].leases| ==> LeaseOk(s, w, i))
    && (forall i, j :: 0 <= i < j < |s.holders[w].leases| ==> s.holders[w].leases[i].key != s.holders[w].leases[j].key)
  }

  ghost predicate Inv<K(!new)>(s: State<K>) {
    && (forall k :: k in s.rows ==> RowOk(s.rows[k], s.now))
    && (forall w :: 0 <= w < |s.holders| ==> HolderOk(s, w))
  }

  lemma GrantKeepsRow(row: Row, w: nat, now: int)
    requires RowOk(row, now) && Claimable(row, now)
    ensures RowOk(GrantRow(row, w, now), now) && Open(GrantRow(row, w, now))
    ensures GrantRow(row, w, now).status == Leased && GrantRow(row, w, now).owner == w
  {
    var next := GrantRow(row, w, now);
    if row.attempts > 0 {
      assert next.grants[row.attempts - 1] == row.grants[|row.grants| - 1];
    }
    forall i | 0 <= i < |next.grants| - 1
      ensures next.grants[i] + Delay(i + 1) <= next.grants[i + 1]
    {
      assert next.grants[i] == row.grants[i];
      if i + 1 < |row.grants| {
        assert next.grants[i + 1] == row.grants[i + 1];
      }
    }
  }

  lemma RuleKeepsRow(row: Row, verdict: Verdict, now: int)
    requires RowOk(row, now) && row.status == Leased && Open(row)
    ensures var next := row.(rulings := row.rulings + [Ruling(row.attempts, verdict)]);
            RowOk(next, now) && Ruled(next, verdict)
  {
    var next := row.(rulings := row.rulings + [Ruling(row.attempts, verdict)]);
    assert Ruled(next, verdict);
  }

  lemma SettleKeepsRow(row: Row, verdict: Verdict, at: int, clock: int, now: int)
    requires RowOk(row, now) && row.status == Leased && Ruled(row, verdict)
    requires row.grants != [] && row.grants[|row.grants| - 1] <= at <= clock <= now
    ensures RowOk(SettleRow(row, row.attempts, verdict, clock), now)
  {
  }

  lemma InitInv<K(!new)>(s: State<K>)
    requires Init(s)
    ensures Inv(s)
  {
  }

  lemma GrantInv<K(!new)>(s: State<K>, step: Step<K>)
    requires Inv(s) && step.Grant? && Enabled(s, step)
    ensures Inv(Next(s, step))
  {
    hide RowOk, Open, Ruled, GrantRow, Claimable;
    var t := Next(s, step);
    forall k | k in step.keys
      ensures RowOk(t.rows[k], t.now) && Open(t.rows[k]) && t.rows[k].owner == step.w && t.rows[k].status == Leased
    {
      assert RowOk(s.rows[k], s.now);
      GrantKeepsRow(s.rows[k], step.w, s.now);
    }
    forall v | 0 <= v < |t.holders|
      ensures HolderOk(t, v)
    {
      if v == step.w {
        forall i | 0 <= i < |t.holders[v].leases|
          ensures LeaseOk(t, v, i)
        {
          assert step.keys[i] in step.keys;
        }
      } else {
        assert HolderOk(s, v);
        forall i | 0 <= i < |t.holders[v].leases|
          ensures LeaseOk(t, v, i)
        {
          assert LeaseOk(s, v, i);
          LeasedIsNotReady(s, v, i);
        }
      }
    }
  }

  lemma LeasedIsNotReady<K(!new)>(s: State<K>, w: nat, i: nat)
    requires w < |s.holders| && i < |s.holders[w].leases| && LeaseOk(s, w, i)
    ensures !Claimable(s.rows[s.holders[w].leases[i].key], s.now)
  {
  }

  // Leases of two workers, or two leases of one worker, never name the same row.
  lemma LeasesDisjoint<K(!new)>(s: State<K>, v: nat, i: nat, w: nat, j: nat)
    requires Inv(s)
    requires v < |s.holders| && i < |s.holders[v].leases|
    requires w < |s.holders| && j < |s.holders[w].leases|
    requires s.holders[v].leases[i].key == s.holders[w].leases[j].key
    ensures v == w && i == j
  {
    assert HolderOk(s, v) && HolderOk(s, w);
    assert LeaseOk(s, v, i) && LeaseOk(s, w, j);
  }

  lemma RuleInv<K(!new)>(s: State<K>, step: Step<K>)
    requires Inv(s) && step.Rule? && Enabled(s, step)
    ensures Inv(Next(s, step))
  {
    var t, w := Next(s, step), step.w;
    var lease := s.holders[w].leases[0];
    assert HolderOk(s, w) && LeaseOk(s, w, 0);
    RuleKeepsRow(s.rows[lease.key], step.verdict, s.now);
    forall v | 0 <= v < |t.holders|
      ensures HolderOk(t, v)
    {
      assert HolderOk(s, v);
      forall i | 0 <= i < |t.holders[v].leases|
        ensures LeaseOk(t, v, i)
      {
        assert LeaseOk(s, v, i);
        if s.holders[v].leases[i].key == lease.key {
          LeasesDisjoint(s, v, i, w, 0);
        }
      }
    }
  }

  lemma SettleInv<K(!new)>(s: State<K>, step: Step<K>)
    requires Inv(s) && step.Settle? && Enabled(s, step)
    ensures Inv(Next(s, step))
  {
    var t, w := Next(s, step), step.w;
    var lease, answer := s.holders[w].leases[0], s.holders[w].answer.value;
    assert HolderOk(s, w) && LeaseOk(s, w, 0);
    SettleKeepsRow(s.rows[lease.key], answer.verdict, answer.at, step.clock, s.now);
    forall v | 0 <= v < |t.holders|
      ensures HolderOk(t, v)
    {
      assert HolderOk(s, v);
      forall i | 0 <= i < |t.holders[v].leases|
        ensures LeaseOk(t, v, i)
      {
        var i0 := if v == w then i + 1 else i;
        assert t.holders[v].leases[i] == s.holders[v].leases[i0];
        assert LeaseOk(s, v, i0);
      }
    }
  }

  lemma DropInv<K(!new)>(s: State<K>, step: Step<K>)
    requires Inv(s) && (step.Drop? || step.Crash? || step.Pass? || step.Insert?) && Enabled(s, step)
    ensures Inv(Next(s, step))
  {
    var t := Next(s, step);
    forall v | 0 <= v < |t.holders|
      ensures HolderOk(t, v)
    {
      assert HolderOk(s, v);
      forall i | 0 <= i < |t.holders[v].leases|
        ensures LeaseOk(t, v, i)
      {
        var i0 := if step.Drop? && v == step.w then i + 1 else i;
        assert t.holders[v].leases[i] == s.holders[v].leases[i0];
        assert LeaseOk(s, v, i0);
      }
    }
  }

  lemma StepInv<K(!new)>(s: State<K>, step: Step<K>)
    requires Inv(s) && Enabled(s, step)
    ensures Inv(Next(s, step))
  {
    match step
    case Grant(_, _, _) => GrantInv(s, step);
    case Rule(_, _) => RuleInv(s, step);
    case Settle(_, _) => SettleInv(s, step);
    case _ => DropInv(s, step);
  }

  // Every state of every run satisfies the invariant.
  lemma {:induction false} RunInv<K(!new)>(s: State<K>, steps: seq<Step<K>>)
    requires Inv(s) && Valid(s, steps)
    ensures Inv(Exec(s, steps))
    decreases |steps|
  {
    if steps != [] {
      var before := steps[..|steps| - 1];
      RunInv(s, before);
      StepInv(Exec(s, before), steps[|steps| - 1]);
    }
  }

  // ---- What the invariant says about one row's history ----

  // At most one verdict per attempt, and nothing after a verdict that is not "try later":
  // so a row is accepted at most once, and a finished row was accepted, rejected, or tried
  // later on its last attempt.
  lemma HistorySafe(row: Row, now: int)
    requires RowOk(row, now)
    ensures forall i, j :: 0 <= i < j < |row.rulings| ==> row.rulings[i].attempt != row.rulings[j].attempt
    ensures forall i :: 0 <= i < |row.rulings| && row.rulings[i].verdict != TryLater ==> i == |row.rulings| - 1
    ensures row.status == Done <==> row.status != Leased && exists i :: 0 <= i < |row.rulings| && row.rulings[i].verdict == Accepted
    ensures row.status == Ready ==> row.attempts < MAX_ATTEMPTS
    ensures row.attempts <= MAX_ATTEMPTS
  {
    if row.status == Done {
      assert row.rulings[|row.rulings| - 1].verdict == Accepted;
    }
  }

  // The kth claim comes at least 2^(k-1) - 1 minutes after the first.
  lemma {:induction false} ClaimsSpread(row: Row, now: int, k: nat)
    requires RowOk(row, now) && 1 <= k <= row.attempts
    ensures row.grants[k - 1] >= row.grants[0] + (Pow2(k - 1) - 1) * MINUTE
  {
    ClaimsSpreadBy(row, now, k);
    TotalDelayClosedForm(k - 1);
  }

  lemma {:induction false} ClaimsSpreadBy(row: Row, now: int, k: nat)
    requires RowOk(row, now) && 1 <= k <= row.attempts
    ensures row.grants[k - 1] >= row.grants[0] + TotalDelay(k - 1)
  {
    if k > 1 {
      ClaimsSpreadBy(row, now, k - 1);
      assert row.grants[k - 2] + Delay(k - 1) <= row.grants[k - 1];
    }
  }

  // ---- What holds along every continuation ----

  ghost predicate Held<K(!new)>(s: State<K>, k: K) {
    exists w, i :: 0 <= w < |s.holders| && 0 <= i < |s.holders[w].leases| && s.holders[w].leases[i].key == k
  }

  // Claimed, and no worker left that will ever write its outcome.
  ghost predicate Stranded<K(!new)>(s: State<K>, k: K) {
    k in s.rows && s.rows[k].status == Leased && !Held(s, k)
  }

  // The statuses Done and Dead are never left; the row is never written again at all.
  lemma {:induction false} FinishedForever<K(!new)>(s: State<K>, steps: seq<Step<K>>, k: K)
    requires Inv(s) && Valid(s, steps)
    requires k in s.rows && s.rows[k].status in {Done, Dead}
    ensures k in Exec(s, steps).rows && Exec(s, steps).rows[k] == s.rows[k]
    decreases |steps|
  {
    if steps != [] {
      var before, last := steps[..|steps| - 1], steps[|steps| - 1];
      FinishedForever(s, before, k);
      RunInv(s, before);
      StepFinished(Exec(s, before), last, k);
    }
  }

  lemma StepFinished<K(!new)>(s: State<K>, step: Step<K>, k: K)
    requires Inv(s) && Enabled(s, step) && k in s.rows && s.rows[k].status in {Done, Dead}
    ensures k in Next(s, step).rows && Next(s, step).rows[k] == s.rows[k]
  {
    if step.Rule? || step.Settle? {
      assert HolderOk(s, step.w) && LeaseOk(s, step.w, 0);
    }
  }

  lemma StepStranded<K(!new)>(s: State<K>, step: Step<K>, k: K)
    requires Enabled(s, step) && Stranded(s, k)
    ensures Stranded(Next(s, step), k) && Next(s, step).rows[k] == s.rows[k]
  {
    var t := Next(s, step);
    forall w, i | 0 <= w < |t.holders| && 0 <= i < |t.holders[w].leases|
      ensures t.holders[w].leases[i].key != k
    {
      if step.Grant? && w == step.w {
        assert step.keys[i] in step.keys;
      } else if (step.Settle? || step.Drop?) && w == step.w {
        assert t.holders[w].leases[i] == s.holders[w].leases[i + 1];
      } else {
        assert t.holders[w].leases[i] == s.holders[w].leases[i];
      }
    }
    if step.Rule? || step.Settle? {
      assert s.holders[step.w].leases[0].key != k;
    }
  }

  // A claim whose worker is gone stays as it is for ever: the lapse of its lock, or
  // anything any worker does, never makes it claimable again.
  lemma {:induction false} StrandedForever<K(!new)>(s: State<K>, steps: seq<Step<K>>, k: K)
    requires Valid(s, steps) && Stranded(s, k)
    ensures Stranded(Exec(s, steps), k) && Exec(s, steps).rows[k] == s.rows[k]
    decreases |steps|
  {
    if steps != [] {
      StrandedForever(s, steps[..|steps| - 1], k);
      StepStranded(Exec(s, steps[..|steps| - 1]), steps[|steps| - 1], k);
    }
  }

  // The row's holder crashes, or cannot write the outcome of this row, or the claim of the
  // row commits and its result is lost.
  ghost predicate Loses<K(!new)>(s: State<K>, step: Step<K>, k: K)
    requires Enabled(s, step)
  {
    match step
    case Crash(w) => exists i :: 0 <= i < |s.holders[w].leases| && s.holders[w].leases[i].key == k
    case Drop(w) => k == s.holders[w].leases[0].key
    case Grant(_, keys, received) => !received && k in keys
    case _ => false
  }

  lemma LossStrands<K(!new)>(s: State<K>, step: Step<K>, k: K)
    requires Inv(s) && Enabled(s, step) && Loses(s, step, k)
    ensures Stranded(Next(s, step), k)
  {
    var t := Next(s, step);
    forall w, i | 0 <= w < |t.holders| && 0 <= i < |t.holders[w].leases|
      ensures t.holders[w].leases[i].key != k
    {
      var i0 := if step.Drop? && w == step.w then i + 1 else i;
      assert t.holders[w].leases[i] == s.holders[w].leases[i0];
      assert HolderOk(s, w) && LeaseOk(s, w, i0);
      if !step.Grant? && t.holders[w].leases[i].key == k {
        var i1 :| 0 <= i1 < |s.holders[step.w].leases| && s.holders[step.w].leases[i1].key == k && (step.Drop? ==> i1 == 0);
        LeasesDisjoint(s, w, i0, step.w, i1);
      }
    }
    if !step.Grant? {
      assert HolderOk(s, step.w);
      var i1 :| 0 <= i1 < |s.holders[step.w].leases| && s.holders[step.w].leases[i1].key == k;
      assert LeaseOk(s, step.w, i1);
    }
  }

  // A lease that no step settles, drops or crashes stays in its holder's hand.
  lemma LeaseStays<K(!new)>(s: State<K>, step: Step<K>, w: nat, i: nat)
    requires Enabled(s, step) && w < |s.holders| && i < |s.holders[w].leases|
    requires (step.Settle? || step.Drop?) && step.w == w ==> i > 0
    requires !(step.Crash? && step.w == w)
    ensures Held(Next(s, step), s.holders[w].leases[i].key)
  {
    hide SettleRow, GrantRow;
    var j := if (step.Settle? || step.Drop?) && step.w == w then i - 1 else i;
    assert Next(s, step).holders[w].leases[j] == s.holders[w].leases[i];
  }

  // Nothing but a loss strands a row: every other step leaves a leased row in some hand.
  lemma OnlyLossStrands<K(!new)>(s: State<K>, step: Step<K>, k: K)
    requires Inv(s) && Enabled(s, step) && !Stranded(s, k) && !Loses(s, step, k)
    requires k in Next(s, step).rows && Next(s, step).rows[k].status == Leased
    ensures Held(Next(s, step), k)
  {
    if step.Grant? && k in step.keys {
      var i :| 0 <= i < |step.keys| && step.keys[i] == k;
      assert Next(s, step).holders[step.w].leases[i].key == k;
    } else {
      assert Held(s, k);
      var w, i :| 0 <= w < |s.holders| && 0 <= i < |s.holders[w].leases| && s.holders[w].leases[i].key == k;
      assert HolderOk(s, w) && LeaseOk(s, w, i);
      LeaseStays(s, step, w, i);
    }
  }

  // A row is stranded after a step exactly if it was before or the step loses it.
  lemma StrandedStep<K(!new)>(s: State<K>, step: Step<K>, k: K)
    requires Inv(s) && Enabled(s, step)
    ensures Stranded(Next(s, step), k) <==> Stranded(s, k) || Loses(s, step, k)
  {
    if Stranded(s, k) {
      StepStranded(s, step, k);
    } else if Loses(s, step, k) {
      LossStrands(s, step, k);
    } else if k in Next(s, step).rows && Next(s, step).rows[k].status == Leased {
      OnlyLossStrands(s, step, k);
    }
  }

  ghost predicate LosesAt<K(!new)>(s: State<K>, steps: seq<Step<K>>, i: nat, k: K)
    requires Valid(s, steps) && i < |steps|
  {
    ValidPrefix(s, steps, i);
    ValidPrefix(s, steps, i + 1);
    assert steps[..i + 1][..i] == steps[..i];
    Loses(Exec(s, steps[..i]), steps[i], k)
  }

  lemma {:induction false} ValidPrefix<K(!new)>(s: State<K>, steps: seq<Step<K>>, i: nat)
    requires Valid(s, steps) && i <= |steps|
    ensures Valid(s, steps[..i])
    decreases |steps|
  {
    if i == |steps| {
      assert steps[..i] == steps;
    } else {
      ValidPrefix(s, steps[..|steps| - 1], i);
      assert steps[..|steps| - 1][..i] == steps[..i];
    }
  }

  // Over whole runs: a row is stranded exactly if it was to begin with or one of the steps
  // lost it.
  lemma {:induction false} StrandedExactly<K(!new)>(s: State<K>, steps: seq<Step<K>>, k: K)
    requires Inv(s) && Valid(s, steps)
    ensures Stranded(Exec(s, steps), k) <==> Stranded(s, k) || exists i: nat :: i < |steps| && LosesAt(s, steps, i, k)
    decreases |steps|
  {
    if steps != [] {
      var before, n := steps[..|steps| - 1], |steps| - 1;
      StrandedExactly(s, before, k);
      RunInv(s, before);
      StrandedStep(Exec(s, before), steps[n], k);
      hide Inv, Stranded, Enabled, Next, LosesAt;
      LosesAtSplit(s, steps, k);
    }
  }

  lemma LosesAtSplit<K(!new)>(s: State<K>, steps: seq<Step<K>>, k: K)
    requires Valid(s, steps) && steps != []
    ensures var before, n := steps[..|steps| - 1], |steps| - 1;
            && (LosesAt(s, steps, n, k) <==> Loses(Exec(s, before), steps[n], k))
            && forall i: nat :: i < n ==> (LosesAt(s, steps, i, k) <==> LosesAt(s, before, i, k))
  {
    hide Loses, Enabled, Next;
    var before, n := steps[..|steps| - 1], |steps| - 1;
    forall i: nat | i < n
      ensures LosesAt(s, steps, i, k) <==> LosesAt(s, before, i, k)
    {
      assert before[..i] == steps[..i];
    }
  }

  // ---- Counting claims ----

  function AttemptsOf<K>(rows: map<K, Row>, k: K): nat {
    if k in rows then rows[k].attempts else 0
  }

  // The attempts of the rows named in `keys`, a repetition-free list.
  function Attempts<K>(rows: map<K, Row>, keys: seq<K>): nat {
    if keys == [] then 0 else AttemptsOf(rows, keys[0]) + Attempts(rows, keys[1..])
  }

  // How many claims of rows in `keys` a run holds.
  ghost function Claims<K(!new)>(steps: seq<Step<K>>, keys: seq<K>): nat {
    if steps == [] then 0
    else Claims(steps[..|steps| - 1], keys) + ClaimsIn(steps[|steps| - 1], keys)
  }

  ghost function ClaimsIn<K(!new)>(step: Step<K>, keys: seq<K>): nat {
    if !step.Grant? || keys == [] then 0
    else (if keys[0] in step.keys then 1 else 0) + ClaimsIn(step, keys[1..])
  }

  lemma {:induction false} StepCounts<K(!new)>(s: State<K>, step: Step<K>, keys: seq<K>)
    requires Inv(s) && Enabled(s, step)
    ensures Attempts(Next(s, step).rows, keys) == Attempts(s.rows, keys) + ClaimsIn(step, keys)
  {
    if keys != [] {
      StepCounts(s, step, keys[1..]);
      if step.Rule? || step.Settle? {
        assert HolderOk(s, step.w) && LeaseOk(s, step.w, 0);
      }
    }
  }

  lemma {:induction false} AttemptsBounded<K(!new)>(s: State<K>, keys: seq<K>)
    requires Inv(s)
    ensures Attempts(s.rows, keys) <= MAX_ATTEMPTS * |keys|
  {
    if keys != [] {
      AttemptsBounded(s, keys[1..]);
    }
  }

  // Attempts count exactly the claims, so no run claims the rows of any list more than
  // eight times each: the retry chain always ends.
  lemma {:induction false} ClaimsBounded<K(!new)>(s: State<K>, steps: seq<Step<K>>, keys: seq<K>)
    requires Inv(s) && Valid(s, steps)
    ensures Attempts(Exec(s, steps).rows, keys) == Attempts(s.rows, keys) + Claims(steps, keys)
    ensures Claims(steps, keys) <= MAX_ATTEMPTS * |keys|
    decreases |steps|
  {
    if steps != [] {
      var before := steps[..|steps| - 1];
      ClaimsBounded(s, before, keys);
      RunInv(s, before);
      StepCounts(Exec(s, before), steps[|steps| - 1], keys);
    }
    RunInv(s, steps);
    AttemptsBounded(Exec(s, steps), keys);
  }
}
