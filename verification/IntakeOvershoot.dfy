// The quota is tested before the message is counted, so requests in progress together go
// past it: how far, exactly.
module IntakeOvershoot {
  import opened Prelude
  import opened Backoff
  import opened Intake
  import RW = RateWindow

  // The nth request of one API key, without an idempotency key.
  function Nth(n: nat, apiKey: int): Request {
    Request(NthName(n), apiKey, "", [])
  }

  // m messages of the key were accepted, all dated at this instant, and longer ids are free.
  ghost predicate Accepted(s: State, m: nat, apiKey: int) {
    && Stamps(s.tables.messages, apiKey) == RW.Copies(s.now, m)
    && forall i :: 0 <= i < |s.tables.messages| ==> |s.tables.messages[i].id| < m
  }

  // The first k requests are done, the others admitted, numbered on from first.
  function Served(k: nat, n: nat, first: nat, apiKey: int): (procs: seq<Phase>)
    ensures |procs| == n
  {
    seq(n, i requires 0 <= i < n => if i < k then Idle else Admitted(Nth(first + i, apiKey)))
  }

  // The first k requests are admitted, the others not.
  function Entered(k: nat, n: nat, first: nat, apiKey: int): (procs: seq<Phase>)
    ensures |procs| == n
  {
    seq(n, i requires 0 <= i < n => if i < k then Admitted(Nth(first + i, apiKey)) else Idle)
  }

  lemma EnteredStep(k: nat, n: nat, first: nat, apiKey: int)
    requires k < n
    ensures Entered(k, n, first, apiKey)[k] == Idle
    ensures Entered(k, n, first, apiKey)[k := Admitted(Nth(first + k, apiKey))] == Entered(k + 1, n, first, apiKey)
  {
  }

  lemma ServedStep(k: nat, n: nat, first: nat, apiKey: int)
    requires k < n
    ensures Served(k, n, first, apiKey)[k] == Admitted(Nth(first + k, apiKey))
    ensures Served(k, n, first, apiKey)[k := Idle] == Served(k + 1, n, first, apiKey)
    ensures forall i :: 0 <= i < n ==> Served(k, n, first, apiKey)[i].Idle? || Served(k, n, first, apiKey)[i].Admitted?
  {
  }

  lemma AllEntered(n: nat, first: nat, apiKey: int)
    ensures Entered(n, n, first, apiKey) == Served(0, n, first, apiKey)
    ensures forall i :: 0 <= i < n ==> Entered(0, n, first, apiKey)[i] == Idle
  {
  }

  lemma AdmitIs(t: State, p: nat, m: nat, req: Request, quota: int -> nat)
    requires Accepted(t, m, req.apiKey) && m < quota(req.apiKey) && p < |t.procs| && t.procs[p] == Idle
    ensures Enabled(t, Admit(p, req), quota) && Next(t, Admit(p, req), quota) == At(t, p, Admitted(req))
    ensures Accepted(At(t, p, Admitted(req)), m, req.apiKey)
  {
    StampsCount(t.tables.messages, req.apiKey, t.now - HOUR);
    RW.CopiesBefore(t.now, m, t.now - HOUR);
  }

  lemma StoreOne(t: State, u: State, m: nat, apiKey: int)
    requires Accepted(t, m, apiKey) && u.now == t.now && u.tables == Stored(t.tables, Nth(m, apiKey), t.now)
    ensures Accepted(u, m + 1, apiKey)
  {
    hide NthName;
    StoredStamps(t.tables, Nth(m, apiKey), t.now, apiKey);
  }

  // An admitted request, nobody else writing, is begun, inserted and committed.
  lemma Finish(s: State, steps: seq<Step>, t: State, p: nat, m: nat, apiKey: int, quota: int -> nat)
    returns (more: seq<Step>, u: State)
    requires Runs(s, steps, t, quota) && Accepted(t, m, apiKey)
    requires p < |t.procs| && t.procs[p] == Admitted(Nth(m, apiKey))
    requires forall q :: 0 <= q < |t.procs| ==> t.procs[q].Idle? || t.procs[q].Admitted?
    ensures Runs(s, more, u, quota) && Accepted(u, m + 1, apiKey)
    ensures u.now == t.now && u.procs == t.procs[p := Idle]
  {
    hide Runs, NthName, Stamps, SendsAfter, RW.Copies;
    RunsMore(s, steps, t, Begin(p), quota);
    var begun := Next(t, Begin(p), quota);
    assert !HasMessage(begun.tables, NthName(m));
    RunsMore(s, steps + [Begin(p)], begun, Insert(p), quota);
    var inserted := Next(begun, Insert(p), quota);
    RunsMore(s, steps + [Begin(p)] + [Insert(p)], inserted, Commit(p, Written), quota);
    more, u := steps + [Begin(p)] + [Insert(p)] + [Commit(p, Written)], Next(inserted, Commit(p, Written), quota);
    StoreOne(t, u, m, apiKey);
  }

  lemma IdleAtFirst(s: State, apiKey: int, quota: int -> nat)
    requires Init(s)
    ensures Runs(s, [], s, quota) && Accepted(s, 0, apiKey)
    ensures forall p :: 0 <= p < |s.procs| ==> s.procs[p] == Idle
    ensures forall first :: s.procs == Entered(0, |s.procs|, first, apiKey)
  {
  }

  lemma ServeOne(s: State, steps: seq<Step>, t: State, m: nat, apiKey: int, quota: int -> nat)
    returns (more: seq<Step>, u: State)
    requires Runs(s, steps, t, quota) && Accepted(t, m, apiKey) && m < quota(apiKey)
    requires t.procs != [] && forall p :: 0 <= p < |t.procs| ==> t.procs[p] == Idle
    ensures Runs(s, more, u, quota) && Accepted(u, m + 1, apiKey) && u.now == t.now && u.procs == t.procs
  {
    hide Runs, Accepted, Enabled, Next;
    AdmitIs(t, 0, m, Nth(m, apiKey), quota);
    RunsMore(s, steps, t, Admit(0, Nth(m, apiKey)), quota);
    more, u := Finish(s, steps + [Admit(0, Nth(m, apiKey))], At(t, 0, Admitted(Nth(m, apiKey))), 0, m, apiKey, quota);
    assert u.procs == t.procs;
  }

  // One request at a time, up to one short of the quota.
  lemma {:induction false} Fill(s: State, m: nat, apiKey: int, quota: int -> nat) returns (steps: seq<Step>, t: State)
    requires Init(s) && s.procs != [] && m < quota(apiKey)
    ensures Runs(s, steps, t, quota) && Accepted(t, m, apiKey) && t.now == s.now && t.procs == s.procs
  {
    IdleAtFirst(s, apiKey, quota);
    hide Runs, Accepted, Init;
    if m == 0 {
      steps, t := [], s;
    } else {
      var before, filled := Fill(s, m - 1, apiKey, quota);
      steps, t := ServeOne(s, before, filled, m - 1, apiKey, quota);
    }
  }

  // Then every request passes the test, since nothing is counted between the tests.
  lemma {:induction false} EnterAll(s: State, steps: seq<Step>, t: State, k: nat, m: nat, apiKey: int, quota: int -> nat)
    returns (more: seq<Step>, u: State)
    requires Runs(s, steps, t, quota) && Accepted(t, m, apiKey) && m < quota(apiKey) && k <= |t.procs|
    requires t.procs == Entered(0, |t.procs|, m, apiKey)
    ensures Runs(s, more, u, quota) && Accepted(u, m, apiKey) && u.now == t.now && u.procs == Entered(k, |t.procs|, m, apiKey)
  {
    hide Runs, Accepted, Entered, Enabled, Next;
    if k == 0 {
      more, u := steps, t;
    } else {
      var before, v := EnterAll(s, steps, t, k - 1, m, apiKey, quota);
      var req := Nth(m + (k - 1), apiKey);
      EnteredStep(k - 1, |t.procs|, m, apiKey);
      AdmitIs(v, k - 1, m, req, quota);
      RunsMore(s, before, v, Admit(k - 1, req), quota);
      more, u := before + [Admit(k - 1, req)], At(v, k - 1, Admitted(req));
    }
  }

  lemma {:induction false} ServeAll(s: State, steps: seq<Step>, t: State, k: nat, m: nat, apiKey: int, quota: int -> nat)
    returns (more: seq<Step>, u: State)
    requires Runs(s, steps, t, quota) && Accepted(t, m, apiKey) && k <= |t.procs|
    requires t.procs == Served(0, |t.procs|, m, apiKey)
    ensures Runs(s, more, u, quota) && Accepted(u, m + k, apiKey) && u.now == t.now && u.procs == Served(k, |t.procs|, m, apiKey)
  {
    hide Runs, Accepted, Served;
    if k == 0 {
      more, u := steps, t;
    } else {
      var before, v := ServeAll(s, steps, t, k - 1, m, apiKey, quota);
      ServedStep(k - 1, |t.procs|, m, apiKey);
      more, u := Finish(s, before, v, k - 1, m + (k - 1), apiKey, quota);
    }
  }

  // The run leaves m messages of the key created in the hour after a.
  ghost predicate Fills(s: State, steps: seq<Step>, apiKey: int, quota: int -> nat, a: int, m: int) {
    Valid(s, steps, quota) && RW.Inside(Stamps(Exec(s, steps, quota).tables.messages, apiKey), a) == m
  }

  lemma AcceptedFills(s: State, steps: seq<Step>, t: State, apiKey: int, quota: int -> nat, m: nat)
    requires Runs(s, steps, t, quota) && Accepted(t, m, apiKey)
    ensures Fills(s, steps, apiKey, quota, t.now - 1, m)
  {
    RW.CopiesCount(t.now, m);
  }

  // For every quota q and every number n of requests in progress, some run from the empty
  // tables creates q - 1 + n messages in one instant.
  lemma QuotaReached(s: State, apiKey: int, quota: int -> nat)
    requires Init(s) && quota(apiKey) > 0 && s.procs != []
    ensures exists steps, a, m :: Fills(s, steps, apiKey, quota, a, m) && m == quota(apiKey) - 1 + |s.procs| && a == s.now - 1
  {
    IdleAtFirst(s, apiKey, quota);
    hide Init, Runs, Accepted, Fills, Served, Entered;
    var n, m := |s.procs|, quota(apiKey) - 1;
    AllEntered(n, m, apiKey);
    var filling, filled := Fill(s, m, apiKey, quota);
    var entering, entered := EnterAll(s, filling, filled, n, m, apiKey, quota);
    var serving, served := ServeAll(s, entering, entered, n, m, apiKey, quota);
    AcceptedFills(s, serving, served, apiKey, quota, m + n);
  }

  // Every one-hour window of every run with n requests in progress holds at most bound.
  ghost predicate Bounds(n: nat, apiKey: int, quota: int -> nat, bound: int) {
    forall s: State, steps, a: int, m: int :: Init(s) && |s.procs| == n && Fills(s, steps, apiKey, quota, a, m) ==> m <= bound
  }

  // A bound on the messages a key creates in an hour holds exactly if it is q - 1 + n or
  // more: the quota itself exactly when requests come one at a time.
  lemma QuotaExactly(n: nat, apiKey: int, quota: int -> nat, bound: int)
    requires n > 0 && quota(apiKey) > 0
    ensures Bounds(n, apiKey, quota, bound) <==> bound >= quota(apiKey) - 1 + n
    ensures Bounds(n, apiKey, quota, quota(apiKey)) <==> n == 1
  {
    BoundExactly(n, apiKey, quota, bound);
    BoundExactly(n, apiKey, quota, quota(apiKey));
  }

  lemma BoundExactly(n: nat, apiKey: int, quota: int -> nat, bound: int)
    requires n > 0 && quota(apiKey) > 0
    ensures Bounds(n, apiKey, quota, bound) <==> bound >= quota(apiKey) - 1 + n
  {
    var s := State(0, EMPTY, seq(n, _ => Idle), []);
    assert Init(s) && |s.procs| == n;
    QuotaReached(s, apiKey, quota);
    hide Init;
    var steps, a, m :| Fills(s, steps, apiKey, quota, a, m) && m == quota(apiKey) - 1 + n;
    forall s: State, steps, a: int, m: int | Init(s) && |s.procs| == n && Fills(s, steps, apiKey, quota, a, m)
      ensures m <= quota(apiKey) - 1 + n
    {
      QuotaHolds(s, steps, quota, apiKey, a);
    }
  }
}
