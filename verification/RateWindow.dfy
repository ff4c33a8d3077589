// A limit that is tested before the work and counted after it.
//
// A process reads how many stamps the last hour holds, and only then, if there are fewer
// than the limit, goes on to add up to `burst` stamps of its own. Both users of this shape
// are proved from here: the delivery ceiling (worker.go:149-160, one test per batch) and
// the send quota (send.go:66-77, one test per request). A stamp is dated when its
// transaction begins and becomes visible to the count only when that commits.
module RateWindow {
  import opened Backoff

  const WINDOW := HOUR

  // budget: stamps this process may still add without another test.
  // drafts: dated but not yet visible.
  datatype Proc = Proc(budget: nat, drafts: seq<int>)

  datatype Gate = Gate(now: int, stamps: seq<int>, procs: seq<Proc>)

  datatype Step =
    | Pass(d: nat)
    | Admit(p: nat)
    | Spend(p: nat, budget: nat)
    | Draft(p: nat)
    | Commit(p: nat)
    | Discard(p: nat)

  // Stamps later than t: what the count query counts, with t an hour before now.
  function After(stamps: seq<int>, t: int): nat {
    if stamps == [] then 0 else After(stamps[..|stamps| - 1], t) + (if stamps[|stamps| - 1] > t then 1 else 0)
  }

  // Stamps in the window (a, a + WINDOW].
  function Inside(stamps: seq<int>, a: int): nat {
    if stamps == [] then 0
    else Inside(stamps[..|stamps| - 1], a) + (if a < stamps[|stamps| - 1] <= a + WINDOW then 1 else 0)
  }

  predicate Enabled(g: Gate, step: Step, limit: int, burst: nat) {
    match step
    case Pass(_) => true
    case Admit(p) => p < |g.procs| && g.procs[p] == Proc(0, []) && After(g.stamps, g.now - WINDOW) < limit
    case Spend(p, budget) => p < |g.procs| && budget <= g.procs[p].budget
    case Draft(p) => p < |g.procs| && g.procs[p].budget > 0
    case Commit(p) => p < |g.procs| && g.procs[p].drafts != []
    case Discard(p) => p < |g.procs| && g.procs[p].drafts != []
  }

  function Next(g: Gate, step: Step, ghost limit: int, burst: nat): Gate
    requires Enabled(g, step, limit, burst)
  {
    match step
    case Pass(d) => g.(now := g.now + d)
    case Admit(p) => g.(procs := g.procs[p := Proc(burst, [])])
    case Spend(p, budget) => g.(procs := g.procs[p := g.procs[p].(budget := budget)])
    case Draft(p) => g.(procs := g.procs[p := Proc(g.procs[p].budget - 1, g.procs[p].drafts + [g.now])])
    case Commit(p) =>
      var drafts := g.procs[p].drafts;
      g.(stamps := g.stamps + [drafts[|drafts| - 1]],
         procs := g.procs[p := g.procs[p].(drafts := drafts[..|drafts| - 1])])
    case Discard(p) =>
      var drafts := g.procs[p].drafts;
      g.(procs := g.procs[p := g.procs[p].(drafts := drafts[..|drafts| - 1])])
  }

  // How many stamps p may still add to the window (a, a + WINDOW].
  function Potential(proc: Proc, a: int, now: int): nat {
    Inside(proc.drafts, a) + (if now <= a + WINDOW then proc.budget else 0)
  }

  function Potentials(procs: seq<Proc>, a: int, now: int): nat {
    if procs == [] then 0
    else Potentials(procs[..|procs| - 1], a, now) + Potential(procs[|procs| - 1], a, now)
  }

  function Bound(g: Gate, limit: int, burst: nat): int {
    limit - 1 + burst * |g.procs|
  }

  // The bound holds of every window, counting what may still be added to it.
  ghost predicate Inv(g: Gate, limit: int, burst: nat) {
    && (forall i :: 0 <= i < |g.stamps| ==> g.stamps[i] <= g.now)
    && (forall p :: 0 <= p < |g.procs| ==> g.procs[p].budget + |g.procs[p].drafts| <= burst)
    && (forall p, i :: 0 <= p < |g.procs| && 0 <= i < |g.procs[p].drafts| ==> g.procs[p].drafts[i] <= g.now)
    && (forall a: int :: Covered(g, a, limit, burst))
  }

  predicate Covered(g: Gate, a: int, limit: int, burst: nat) {
    Inside(g.stamps, a) + Potentials(g.procs, a, g.now) <= Bound(g, limit, burst)
  }

  lemma {:induction false} PotentialsUpdate(procs: seq<Proc>, p: nat, proc: Proc, a: int, now: int)
    requires p < |procs|
    ensures Potentials(procs[p := proc], a, now) == Potentials(procs, a, now) - Potential(procs[p], a, now) + Potential(proc, a, now)
  {
    var last := |procs| - 1;
    if p == last {
      assert procs[p := proc][..last] == procs[..last];
    } else {
      assert procs[p := proc][..last] == procs[..last][p := proc];
      PotentialsUpdate(procs[..last], p, proc, a, now);
    }
  }

  lemma {:induction false} InsideFew(drafts: seq<int>, a: int)
    ensures Inside(drafts, a) <= |drafts|
  {
    if drafts != [] {
      InsideFew(drafts[..|drafts| - 1], a);
    }
  }

  lemma {:induction false} PotentialsFew(procs: seq<Proc>, a: int, now: int, burst: nat)
    requires forall p :: 0 <= p < |procs| ==> procs[p].budget + |procs[p].drafts| <= burst
    ensures Potentials(procs, a, now) <= burst * |procs|
  {
    if procs != [] {
      var last := |procs| - 1;
      PotentialsFew(procs[..last], a, now, burst);
      InsideFew(procs[last].drafts, a);
      assert burst * |procs| == burst * last + burst;
    }
  }

  lemma {:induction false} PotentialsFall(procs: seq<Proc>, a: int, now: int, later: int)
    requires now <= later
    ensures Potentials(procs, a, later) <= Potentials(procs, a, now)
  {
    if procs != [] {
      PotentialsFall(procs[..|procs| - 1], a, now, later);
    }
  }

  // A window that is not over holds no more than the last hour does.
  lemma {:induction false} InsideRecent(stamps: seq<int>, a: int, now: int)
    requires now <= a + WINDOW
    ensures Inside(stamps, a) <= After(stamps, now - WINDOW)
  {
    if stamps != [] {
      InsideRecent(stamps[..|stamps| - 1], a, now);
    }
  }

  lemma StepCovered(g: Gate, step: Step, limit: int, burst: nat, a: int)
    requires Inv(g, limit, burst) && Enabled(g, step, limit, burst)
    ensures Covered(Next(g, step, limit, burst), a, limit, burst)
  {
    var h := Next(g, step, limit, burst);
    assert Covered(g, a, limit, burst);
    if step.Pass? {
      PotentialsFall(g.procs, a, g.now, h.now);
    } else {
      PotentialsUpdate(g.procs, step.p, h.procs[step.p], a, g.now);
      if step.Admit? && g.now <= a + WINDOW {
        InsideRecent(g.stamps, a, g.now);
        PotentialsFew(h.procs, a, g.now, burst);
      }
    }
  }

  lemma StepInv(g: Gate, step: Step, limit: int, burst: nat)
    requires Inv(g, limit, burst) && Enabled(g, step, limit, burst)
    ensures Inv(Next(g, step, limit, burst), limit, burst)
  {
    forall a: int
      ensures Covered(Next(g, step, limit, burst), a, limit, burst)
    {
      StepCovered(g, step, limit, burst, a);
    }
  }

  lemma InitInv(g: Gate, limit: int, burst: nat)
    requires limit > 0 && AtRest(g)
    ensures Inv(g, limit, burst)
  {
    forall a: int
      ensures Covered(g, a, limit, burst)
    {
      IdlePotentials(g.procs, a, g.now);
    }
  }

  lemma {:induction false} IdlePotentials(procs: seq<Proc>, a: int, now: int)
    requires forall p :: 0 <= p < |procs| ==> procs[p] == Proc(0, [])
    ensures Potentials(procs, a, now) == 0
  {
    if procs != [] {
      IdlePotentials(procs[..|procs| - 1], a, now);
    }
  }

  lemma OneWindow(g: Gate, limit: int, burst: nat, a: int)
    requires Inv(g, limit, burst)
    ensures Inside(g.stamps, a) <= limit - 1 + burst * |g.procs|
  {
    assert Covered(g, a, limit, burst);
  }

  // ---- Whole runs ----

  ghost predicate Valid(g: Gate, steps: seq<Step>, limit: int, burst: nat)
    decreases |steps|, 0
  {
    steps == [] ||
    (Valid(g, steps[..|steps| - 1], limit, burst) &&
     Enabled(Exec(g, steps[..|steps| - 1], limit, burst), steps[|steps| - 1], limit, burst))
  }

  ghost function Exec(g: Gate, steps: seq<Step>, limit: int, burst: nat): Gate
    requires Valid(g, steps, limit, burst)
    decreases |steps|, 1
  {
    if steps == [] then g
    else Next(Exec(g, steps[..|steps| - 1], limit, burst), steps[|steps| - 1], limit, burst)
  }

  // No stamps yet, and no process past the test.
  ghost predicate AtRest(g: Gate) {
    g.stamps == [] && forall p :: 0 <= p < |g.procs| ==> g.procs[p] == Proc(0, [])
  }

  lemma {:induction false} RunInv(g: Gate, steps: seq<Step>, limit: int, burst: nat)
    requires limit > 0 && AtRest(g) && Valid(g, steps, limit, burst)
    ensures Inv(Exec(g, steps, limit, burst), limit, burst) && |Exec(g, steps, limit, burst).procs| == |g.procs|
    decreases |steps|
  {
    if steps == [] {
      InitInv(g, limit, burst);
    } else {
      RunInv(g, steps[..|steps| - 1], limit, burst);
      hide Inv;
      StepInv(Exec(g, steps[..|steps| - 1], limit, burst), steps[|steps| - 1], limit, burst);
    }
  }

  // In every run of n processes from rest, every window of one hour, sliding anywhere, holds
  // at most limit - 1 + burst * n stamps.
  lemma EveryWindow(g: Gate, steps: seq<Step>, limit: int, burst: nat, a: int)
    requires limit > 0 && AtRest(g) && Valid(g, steps, limit, burst)
    ensures Inside(Exec(g, steps, limit, burst).stamps, a) <= limit - 1 + burst * |g.procs|
  {
    RunInv(g, steps, limit, burst);
    OneWindow(Exec(g, steps, limit, burst), limit, burst, a);
  }

  // ---- The bound is reached ----

  ghost predicate Leads(g: Gate, steps: seq<Step>, h: Gate, limit: int, burst: nat) {
    Valid(g, steps, limit, burst) && Exec(g, steps, limit, burst) == h
  }

  ghost predicate Reaches(g: Gate, h: Gate, limit: int, burst: nat) {
    exists steps :: Leads(g, steps, h, limit, burst)
  }

  lemma ReachSelf(g: Gate, limit: int, burst: nat)
    ensures Reaches(g, g, limit, burst)
  {
    assert Leads(g, [], g, limit, burst);
  }

  lemma ReachStep(g: Gate, h: Gate, step: Step, limit: int, burst: nat)
    requires Reaches(g, h, limit, burst) && Enabled(h, step, limit, burst)
    ensures Reaches(g, Next(h, step, limit, burst), limit, burst)
  {
    var steps :| Leads(g, steps, h, limit, burst);
    assert (steps + [step])[..|steps|] == steps;
    assert Leads(g, steps + [step], Next(h, step, limit, burst), limit, burst);
  }

  function Copies(t: int, n: nat): (s: seq<int>)
    ensures |s| == n
  {
    if n == 0 then [] else Copies(t, n - 1) + [t]
  }

  lemma {:induction false} CopiesCount(t: int, n: nat)
    ensures After(Copies(t, n), t - 1) == n && Inside(Copies(t, n), t - 1) == n
  {
    if n > 0 {
      CopiesCount(t, n - 1);
      assert Copies(t, n)[..n - 1] == Copies(t, n - 1);
    }
  }

  lemma {:induction false} CopiesBefore(t: int, n: nat, a: int)
    ensures After(Copies(t, n), a) <= n
  {
    if n > 0 {
      CopiesBefore(t, n - 1, a);
      assert Copies(t, n)[..n - 1] == Copies(t, n - 1);
    }
  }

  // Admitted, p adds a stamp.
  lemma AddOne(g: Gate, n: nat, procs: seq<Proc>, p: nat, now: int, limit: int, burst: nat)
    requires p < |procs| && procs[p].budget > 0 && procs[p].drafts == []
    requires Reaches(g, Gate(now, Copies(now, n), procs), limit, burst)
    ensures Reaches(g, Gate(now, Copies(now, n + 1), procs[p := Proc(procs[p].budget - 1, [])]), limit, burst)
  {
    hide Reaches;
    var h := Gate(now, Copies(now, n), procs);
    ReachStep(g, h, Draft(p), limit, burst);
    var drafted := Next(h, Draft(p), limit, burst);
    assert drafted.procs[p].drafts == [now];
    assert [now][..0] == [];
    ReachStep(g, drafted, Commit(p), limit, burst);
    assert Next(drafted, Commit(p), limit, burst).procs == procs[p := Proc(procs[p].budget - 1, [])];
  }

  lemma {:induction false} Drain(g: Gate, n: nat, procs: seq<Proc>, p: nat, budget: nat, now: int, limit: int, burst: nat)
    requires p < |procs| && procs[p] == Proc(budget, [])
    requires Reaches(g, Gate(now, Copies(now, n), procs), limit, burst)
    ensures Reaches(g, Gate(now, Copies(now, n + budget), procs[p := Proc(0, [])]), limit, burst)
    decreases budget
  {
    hide Reaches, Copies;
    if budget > 0 {
      AddOne(g, n, procs, p, now, limit, burst);
      var less := procs[p := Proc(budget - 1, [])];
      Drain(g, n + 1, less, p, budget - 1, now, limit, burst);
      assert less[p := Proc(0, [])] == procs[p := Proc(0, [])];
    } else {
      assert procs[p := Proc(0, [])] == procs;
    }
  }

  // The first k processes done, the others admitted.
  function Mixed(k: nat, n: nat, burst: nat): (procs: seq<Proc>)
    requires k <= n
  {
    seq(n, i => if i < k then Proc(0, []) else Proc(burst, []))
  }

  lemma {:induction false} AdmitAll(g: Gate, m: nat, k: nat, n: nat, now: int, limit: int, burst: nat)
    requires k <= n && m < limit && Reaches(g, Gate(now, Copies(now, m), Mixed(n, n, burst)), limit, burst)
    ensures Reaches(g, Gate(now, Copies(now, m), Mixed(k, n, burst)), limit, burst)
    decreases n - k
  {
    if k < n {
      AdmitAll(g, m, k + 1, n, now, limit, burst);
      CopiesBefore(now, m, now - WINDOW);
      hide Reaches, Copies;
      var h := Gate(now, Copies(now, m), Mixed(k + 1, n, burst));
      ReachStep(g, h, Admit(k), limit, burst);
      assert Next(h, Admit(k), limit, burst).procs == Mixed(k, n, burst);
    }
  }

  lemma {:induction false} DrainAll(g: Gate, m: nat, k: nat, n: nat, now: int, limit: int, burst: nat)
    requires k <= n && Reaches(g, Gate(now, Copies(now, m), Mixed(0, n, burst)), limit, burst)
    ensures Reaches(g, Gate(now, Copies(now, m + burst * k), Mixed(k, n, burst)), limit, burst)
    decreases k
  {
    hide Reaches, Copies;
    if k > 0 {
      DrainAll(g, m, k - 1, n, now, limit, burst);
      Drain(g, m + burst * (k - 1), Mixed(k - 1, n, burst), k - 1, burst, now, limit, burst);
      assert Mixed(k - 1, n, burst)[k - 1 := Proc(0, [])] == Mixed(k, n, burst);
      assert m + burst * (k - 1) + burst == m + burst * k;
    } else {
      assert m + burst * k == m;
    }
  }

  lemma FillOne(g: Gate, m: nat, procs: seq<Proc>, now: int, limit: int, burst: nat)
    requires m + 1 < limit && burst > 0 && procs != [] && procs[0] == Proc(0, [])
    requires Reaches(g, Gate(now, Copies(now, m), procs), limit, burst)
    ensures Reaches(g, Gate(now, Copies(now, m + 1), procs), limit, burst)
  {
    CopiesBefore(now, m, now - WINDOW);
    hide Reaches, Copies, After;
    var h := Gate(now, Copies(now, m), procs);
    ReachStep(g, h, Admit(0), limit, burst);
    var admitted := procs[0 := Proc(burst, [])];
    assert Next(h, Admit(0), limit, burst) == Gate(now, Copies(now, m), admitted);
    AddOne(g, m, admitted, 0, now, limit, burst);
    var added := Gate(now, Copies(now, m + 1), admitted[0 := Proc(burst - 1, [])]);
    ReachStep(g, added, Spend(0, 0), limit, burst);
    assert Next(added, Spend(0, 0), limit, burst).procs == procs;
  }

  // One at a time, up to one short of the limit.
  lemma {:induction false} Fill(g: Gate, m: nat, n: nat, now: int, limit: int, burst: nat)
    requires m < limit && n > 0 && burst > 0 && g == Gate(now, [], Mixed(n, n, burst))
    ensures Reaches(g, Gate(now, Copies(now, m), Mixed(n, n, burst)), limit, burst)
  {
    if m == 0 {
      ReachSelf(g, limit, burst);
    } else {
      Fill(g, m - 1, n, now, limit, burst);
      FillOne(g, m - 1, Mixed(n, n, burst), now, limit, burst);
    }
  }

  // For every limit, burst and number of processes some run fills one window to the bound:
  // no smaller one holds.
  lemma BoundIsReached(limit: int, burst: nat, n: nat)
    requires limit > 0 && burst > 0 && n > 0
    ensures exists h :: Reaches(Gate(0, [], Mixed(n, n, burst)), h, limit, burst) &&
                        Inside(h.stamps, -1) == limit - 1 + burst * n
  {
    var g := Gate(0, [], Mixed(n, n, burst));
    Fill(g, limit - 1, n, 0, limit, burst);
    AdmitAll(g, limit - 1, 0, n, 0, limit, burst);
    DrainAll(g, limit - 1, n, n, 0, limit, burst);
    CopiesCount(0, limit - 1 + burst * n);
  }
}
