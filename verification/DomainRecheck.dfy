// The domain recheck: its statements in internal/store/webhooks.go and the checker's loop in
// internal/worker/webhooks.go.
//
// A run may have any number of checkers. What a lookup finds is any of its three outcomes.
module DomainRecheck {
  import opened Prelude
  import opened Backoff

  // Names are unique; the surrogate id the statements use stands for the same row.
  type Id = string

  const RECHECK := 24 * HOUR
  const BATCH := 50

  datatype Status = Pending | Verified | Suspended

  datatype Domain = Domain(status: Status, verifiedAt: Option<int>, lastChecked: Option<int>)

  datatype Finding = Proved | LookupFailed | Absent

  // A checker's batch is what is left of its selection. history is the conclusive findings
  // that reached the table; it is not stored.
  datatype State = State(now: int, domains: map<Id, Domain>, batches: seq<seq<Id>>, history: map<Id, seq<Finding>>)

  datatype Step =
    | Pass(d: nat)
    | Add(id: Id)
    | Select(c: nat, picks: seq<Id>)
    | Check(c: nat, finding: Finding, write: Write)
    | Crash(c: nat)

  predicate Active(d: Domain) {
    d.status.Verified? || d.status.Pending?
  }

  predicate Due(d: Domain, now: int) {
    Active(d) && (d.lastChecked.None? || d.lastChecked.value < now - RECHECK)
  }

  // ORDER BY last_checked_at NULLS FIRST.
  predicate NotAfter(x: Option<int>, y: Option<int>) {
    x.None? || (y.Some? && x.value <= y.value)
  }

  ghost predicate IsSelection(domains: map<Id, Domain>, now: int, limit: nat, picks: seq<Id>) {
    && Distinct(picks)
    && |picks| <= limit
    && (forall id :: id in picks ==> id in domains && Due(domains[id], now))
    && (forall id :: id in domains && id !in picks && Due(domains[id], now) ==>
          |picks| == limit && forall p :: p in picks ==> NotAfter(domains[p].lastChecked, domains[id].lastChecked))
  }

  // What one finding writes. The row is named by id alone.
  function Checked(d: Domain, finding: Finding, now: int): Domain {
    match finding
    case Proved => Domain(Verified, if d.verifiedAt.None? then Some(now) else d.verifiedAt, Some(now))
    case LookupFailed => d.(lastChecked := Some(now))
    case Absent => d.(status := Suspended, lastChecked := Some(now))
  }

  function CheckedRows(domains: map<Id, Domain>, id: Id, finding: Finding, now: int): map<Id, Domain> {
    if id in domains then domains[id := Checked(domains[id], finding, now)] else domains
  }

  function ActiveIds(domains: map<Id, Domain>): set<Id> {
    set id | id in domains && Active(domains[id])
  }

  ghost predicate Enabled(s: State, step: Step) {
    match step
    case Pass(_) => true
    case Add(id) => id !in s.domains
    case Select(c, picks) => c < |s.batches| && s.batches[c] == [] && IsSelection(s.domains, s.now, BATCH, picks)
    case Check(c, _, _) => c < |s.batches| && s.batches[c] != []
    case Crash(c) => c < |s.batches|
  }

  function Recorded(history: map<Id, seq<Finding>>, id: Id, finding: Finding): map<Id, seq<Finding>> {
    if finding.LookupFailed? || id !in history then history else history[id := history[id] + [finding]]
  }

  function Next(s: State, step: Step): State
    requires Enabled(s, step)
  {
    match step
    case Pass(d) => s.(now := s.now + d)
    case Add(id) =>
      s.(domains := s.domains[id := Domain(Pending, None, None)], history := s.history[id := []])
    case Select(c, picks) => s.(batches := s.batches[c := picks])
    case Check(c, finding, write) =>
      var id, rest := s.batches[c][0], s.batches[c][1..];
      if write.Refused? then s.(batches := s.batches[c := rest])
      else s.(batches := s.batches[c := rest], domains := CheckedRows(s.domains, id, finding, s.now),
              history := Recorded(s.history, id, finding))
    case Crash(c) => s.(batches := s.batches[c := []])
  }

  ghost predicate Valid(s: State, steps: seq<Step>)
    decreases |steps|, 0
  {
    steps == [] || (Valid(s, steps[..|steps| - 1]) && Enabled(Exec(s, steps[..|steps| - 1]), steps[|steps| - 1]))
  }

  ghost function Exec(s: State, steps: seq<Step>): State
    requires Valid(s, steps)
    decreases |steps|, 1
  {
    if steps == [] then s else Next(Exec(s, steps[..|steps| - 1]), steps[|steps| - 1])
  }

  ghost predicate Init(s: State) {
    && s.domains == map[] && s.history == map[]
    && forall c :: 0 <= c < |s.batches| ==> s.batches[c] == []
  }

  // ---- What a status means ----

  // The standing its findings give a domain: pending before any, verified while all were
  // proofs, suspended from the first that was not.
  function Standing(findings: seq<Finding>): Status {
    if Absent in findings then Suspended else if findings == [] then Pending else Verified
  }

  // The status the table really holds: that of the last finding.
  function Latest(findings: seq<Finding>): Status {
    if findings == [] then Pending else if findings[|findings| - 1].Absent? then Suspended else Verified
  }

  ghost predicate Conclusive(findings: seq<Finding>) {
    LookupFailed !in findings
  }

  ghost predicate Follows(d: Domain, findings: seq<Finding>, now: int) {
    && Conclusive(findings) && d.status == Latest(findings)
    && (d.lastChecked.Some? ==> d.lastChecked.value <= now)
    && (d.status.Verified? ==> d.verifiedAt.Some?)
  }

  ghost predicate Shape(s: State) {
    && s.history.Keys == s.domains.Keys
    && (forall id :: id in s.domains ==> Follows(s.domains[id], s.history[id], s.now))
    && (forall c :: 0 <= c < |s.batches| ==> Distinct(s.batches[c]) && forall id :: id in s.batches[c] ==> id in s.domains)
  }

  // With one checker, what it has selected is not suspended, and no domain was proved again
  // after it was suspended.
  ghost predicate Settled(s: State)
    requires Shape(s)
  {
    && (forall c, id :: 0 <= c < |s.batches| && id in s.batches[c] ==> Active(s.domains[id]))
    && (forall id :: id in s.domains ==> s.domains[id].status == Standing(s.history[id]))
  }

  lemma StepShape(s: State, step: Step)
    requires Shape(s) && Enabled(s, step)
    ensures Shape(Next(s, step))
  {
    if step.Check? {
      CheckShape(s, step);
    }
  }

  lemma CheckShape(s: State, step: Step)
    requires Shape(s) && Enabled(s, step) && step.Check?
    ensures Shape(Next(s, step))
  {
    var batch := s.batches[step.c];
    assert batch[0] in batch;
    assert forall id :: id in batch[1..] ==> id in batch;
    CheckedFollows(s.domains[batch[0]], s.history[batch[0]], step.finding, s.now);
    hide Checked, Follows;
  }

  lemma CheckedFollows(d: Domain, findings: seq<Finding>, finding: Finding, now: int)
    requires Follows(d, findings, now)
    ensures Follows(Checked(d, finding, now), if finding.LookupFailed? then findings else findings + [finding], now)
  {
  }

  // A lookup that failed changes no status; a finding written changes one domain's, and it
  // agrees with all its findings exactly when it is not a proof of a suspended domain.
  lemma CheckAgrees(s: State, c: nat, finding: Finding, write: Write)
    requires Shape(s) && Enabled(s, Check(c, finding, write)) && !write.Refused?
    requires var id := s.batches[c][0]; s.domains[id].status == Standing(s.history[id])
    ensures var t, id := Next(s, Check(c, finding, write)), s.batches[c][0];
            && (forall other :: other in s.domains && other != id ==> t.domains[other] == s.domains[other])
            && (finding.LookupFailed? ==> t.domains[id].status == s.domains[id].status)
            && (t.domains[id].status == Standing(t.history[id]) <==> !(finding.Proved? && s.domains[id].status.Suspended?))
  {
    var id := s.batches[c][0];
    assert id in s.batches[c];
    var h := s.history[id];
    assert Absent in h + [finding] <==> Absent in h || finding == Absent;
  }

  lemma StepSettled(s: State, step: Step)
    requires |s.batches| == 1 && Shape(s) && Settled(s) && Enabled(s, step)
    ensures Shape(Next(s, step)) && Settled(Next(s, step))
  {
    StepShape(s, step);
    if step.Check? {
      var batch := s.batches[0];
      assert batch[0] in batch;
      assert forall id :: id in batch[1..] ==> id in batch;
      assert forall i :: 0 <= i < |batch[1..]| ==> batch[1..][i] == batch[i + 1] && batch[0] != batch[i + 1];
      if !step.write.Refused? {
        CheckAgrees(s, 0, step.finding, step.write);
      }
    }
  }

  // With one checker a domain's status is a function of its conclusive checks alone, in every
  // run: lookups that fail and writes that are lost never change it.
  lemma {:induction false} StatusFromFindings(s: State, steps: seq<Step>)
    requires Init(s) && |s.batches| == 1 && Valid(s, steps)
    ensures var t := Exec(s, steps);
            Shape(t) && Settled(t) && forall id :: id in t.domains ==> t.domains[id].status == Standing(t.history[id])
    ensures |Exec(s, steps).batches| == 1
    decreases |steps|
  {
    if steps != [] {
      var before, last := steps[..|steps| - 1], steps[|steps| - 1];
      StatusFromFindings(s, before);
      StepSettled(Exec(s, before), last);
    }
  }

  // With any number of checkers it is the last conclusive finding that counts.
  lemma StatusIsLatest(s: State, steps: seq<Step>)
    requires Init(s) && Valid(s, steps)
    ensures Shape(Exec(s, steps))
  {
    RunShape(s, steps);
  }

  // A domain keeps the time it was first verified, whatever is found of it later.
  lemma {:induction false} FirstVerified(s: State, steps: seq<Step>, id: Id)
    requires Valid(s, steps) && id in s.domains && s.domains[id].verifiedAt.Some?
    ensures id in Exec(s, steps).domains && Exec(s, steps).domains[id].verifiedAt == s.domains[id].verifiedAt
    decreases |steps|
  {
    if steps != [] {
      FirstVerified(s, steps[..|steps| - 1], id);
      KeepsVerified(Exec(s, steps[..|steps| - 1]), steps[|steps| - 1], id);
    }
  }

  // Only a proof sets that time, and every finding written sets the time of the last check.
  lemma KeepsVerified(s: State, step: Step, id: Id)
    requires Enabled(s, step) && id in s.domains
    ensures id in Next(s, step).domains
    ensures var d, e, written := s.domains[id], Next(s, step).domains[id], step.Check? && !step.write.Refused? && s.batches[step.c][0] == id;
            && e.verifiedAt == (if written && step.finding.Proved? && d.verifiedAt.None? then Some(s.now) else d.verifiedAt)
            && e.lastChecked == (if written then Some(s.now) else d.lastChecked)
  {
  }

  // In every run, a selection that is not full takes a domain exactly if its last conclusive
  // check did not fail and it was never checked, or last more than a day ago.
  lemma SelectedWhenDue(s: State, steps: seq<Step>, select: Step, id: Id)
    requires Init(s) && Valid(s, steps) && Enabled(Exec(s, steps), select) && select.Select? && |select.picks| < 50
    requires id in Exec(s, steps).domains
    ensures var t := Exec(s, steps);
            && id in t.history
            && (id in select.picks <==>
                  && (t.history[id] == [] || t.history[id][|t.history[id]| - 1] != Absent)
                  && (t.domains[id].lastChecked.None? || t.now - t.domains[id].lastChecked.value > 86_400_000_000_000))
  {
    StatusIsLatest(s, steps);
    assert Follows(Exec(s, steps).domains[id], Exec(s, steps).history[id], Exec(s, steps).now);
    hide Exec, Valid;
  }

  // Two checkers can hold the same domain, and then a suspension is undone.
  function Race(): seq<Step> {
    [Add("d"), Select(0, ["d"]), Select(1, ["d"]), Check(0, Absent, Written), Check(1, Proved, Written)]
  }

  // Where the race leads from any empty table with two checkers or more.
  lemma RaceIs(s: State) returns (t: State)
    requires Init(s) && |s.batches| >= 2
    ensures Valid(s, Race()) && Exec(s, Race()) == t
    ensures "d" in t.domains && "d" in t.history && t.domains["d"].status == Verified && t.history["d"] == [Absent, Proved]
  {
    var steps := Race();
    var s1 := Next(s, steps[0]);
    assert Enabled(s1, steps[1]);
    var s2 := Next(s1, steps[1]);
    assert Enabled(s2, steps[2]);
    var s3 := Next(s2, steps[2]);
    assert Enabled(s3, steps[3]);
    var s4 := Next(s3, steps[3]);
    assert Enabled(s4, steps[4]);
    t := Next(s4, steps[4]);
    assert Valid(s, []) && Exec(s, []) == s;
    hide Valid, Exec, Next, Enabled;
    ExecStep(s, [], steps[0]);
    assert [] + [steps[0]] == steps[..1];
    ExecStep(s, steps[..1], steps[1]);
    assert steps[..1] + [steps[1]] == steps[..2];
    ExecStep(s, steps[..2], steps[2]);
    assert steps[..2] + [steps[2]] == steps[..3];
    ExecStep(s, steps[..3], steps[3]);
    assert steps[..3] + [steps[3]] == steps[..4];
    ExecStep(s, steps[..4], steps[4]);
    assert steps[..4] + [steps[4]] == steps;
  }

  lemma TwoCheckersUndoASuspension(s: State)
    requires Init(s) && |s.batches| >= 2
    ensures Valid(s, Race())
    ensures var t := Exec(s, Race());
            Shape(t) && "d" in t.domains && t.domains["d"].status == Verified && Standing(t.history["d"]) == Suspended
  {
    var t := RaceIs(s);
    StatusIsLatest(s, Race());
    assert Absent == t.history["d"][0];
  }

  // In this run every status is what all its findings say.
  ghost predicate Agrees(s: State, steps: seq<Step>) {
    Valid(s, steps) ==>
      var t := Exec(s, steps);
      t.history.Keys == t.domains.Keys && forall id :: id in t.domains ==> t.domains[id].status == Standing(t.history[id])
  }

  lemma {:induction false} NobodyChecks(s: State, steps: seq<Step>)
    requires Init(s) && |s.batches| == 0 && Valid(s, steps)
    ensures var t := Exec(s, steps);
            |t.batches| == 0 && t.history.Keys == t.domains.Keys &&
            forall id :: id in t.domains ==> t.domains[id].status == Pending && t.history[id] == []
    decreases |steps|
  {
    if steps != [] {
      NobodyChecks(s, steps[..|steps| - 1]);
    }
  }

  // Status and findings agree in every run of n checkers exactly if n is at most one.
  lemma AgreesExactly(n: nat)
    ensures (forall s: State, steps :: Init(s) && |s.batches| == n ==> Agrees(s, steps)) <==> n <= 1
  {
    if n >= 2 {
      var s := State(0, map[], seq(n, _ => []), map[]);
      TwoCheckersUndoASuspension(s);
      assert Init(s) && |s.batches| == n && !Agrees(s, Race());
    } else {
      forall s: State, steps | Init(s) && |s.batches| == n
        ensures Agrees(s, steps)
      {
        if Valid(s, steps) {
          if n == 1 {
            StatusFromFindings(s, steps);
          } else {
            NobodyChecks(s, steps);
          }
        }
      }
    }
  }

  lemma ExecStep(s: State, steps: seq<Step>, step: Step)
    requires Valid(s, steps) && Enabled(Exec(s, steps), step)
    ensures Valid(s, steps + [step]) && Exec(s, steps + [step]) == Next(Exec(s, steps), step)
  {
    assert (steps + [step])[..|steps|] == steps;
  }

  // ---- Fairness ----

  // The domains that would be taken before x and are not being checked.
  function Ahead(s: State, x: Id): set<Id>
    requires |s.batches| == 1 && x in s.domains
  {
    set y | y in s.domains && y != x && Active(s.domains[y]) && y !in s.batches[0]
            && NotAfter(s.domains[y].lastChecked, s.domains[x].lastChecked)
  }

  // A due domain of a state with one checker, which does not have it in hand.
  ghost predicate Waits(s: State, x: Id) {
    |s.batches| == 1 && Shape(s) && x in s.domains && Due(s.domains[x], s.now) && x !in s.batches[0]
  }

  // How many domains a step may put ahead of any other: one added, or those whose check is
  // lost.
  function Delay(s: State, step: Step): nat {
    match step
    case Add(_) => 1
    case Check(_, _, write) => if write.Refused? then 1 else 0
    case Crash(c) => if c < |s.batches| then |s.batches[c]| else 0
    case _ => 0
  }

  ghost function Delays(s: State, steps: seq<Step>): nat
    requires Valid(s, steps)
    decreases |steps|
  {
    if steps == [] then 0
    else Delays(s, steps[..|steps| - 1]) + Delay(Exec(s, steps[..|steps| - 1]), steps[|steps| - 1])
  }

  function Selects(steps: seq<Step>): nat {
    if steps == [] then 0 else Selects(steps[..|steps| - 1]) + if steps[|steps| - 1].Select? then 1 else 0
  }

  predicate Picks(step: Step, x: Id) {
    step.Select? && x in step.picks
  }

  lemma {:induction false} SubsetSize(a: set<Id>, b: set<Id>)
    requires a <= b
    ensures |a| <= |b|
    decreases b
  {
    if b != {} {
      var x :| x in b;
      SubsetSize(a - {x}, b - {x});
    }
  }

  lemma SelectTaken(s: State, picks: seq<Id>, taken: set<Id>, x: Id)
    requires Waits(s, x) && Enabled(s, Select(0, picks)) && taken == (set id | id in picks) && x !in picks
    ensures |taken| == BATCH && taken <= Ahead(s, x) && Ahead(Next(s, Select(0, picks)), x) == Ahead(s, x) - taken
  {
    DistinctSize(picks);
    assert forall id :: id in picks ==> NotAfter(s.domains[id].lastChecked, s.domains[x].lastChecked);
  }

  lemma AheadGrows(s: State, t: State, x: Id, more: set<Id>)
    requires |s.batches| == 1 && |t.batches| == 1 && x in s.domains && x in t.domains
    requires Ahead(t, x) <= Ahead(s, x) + more
    ensures |Ahead(t, x)| <= |Ahead(s, x)| + |more|
  {
    SubsetSize(Ahead(t, x), Ahead(s, x) + more);
  }

  lemma CheckAhead(s: State, step: Step, x: Id)
    requires Waits(s, x) && Enabled(s, step) && step.Check?
    ensures Waits(Next(s, step), x) && |Ahead(Next(s, step), x)| <= |Ahead(s, x)| + Delay(s, step)
  {
    StepShape(s, step);
    hide Follows;
    var t, batch := Next(s, step), s.batches[0];
    assert batch[0] in batch;
    assert forall id :: id in batch <==> id == batch[0] || id in batch[1..];
    CheckedGoesBehind(s.domains[batch[0]], s.domains[x], step.finding, s.now);
    hide Checked, NotAfter, Due, Active;
    assert t.domains[x] == s.domains[x];
    AheadGrows(s, t, x, if step.write.Refused? then {batch[0]} else {});
  }

  // A domain just checked is not before one that is due.
  lemma CheckedGoesBehind(d: Domain, due: Domain, finding: Finding, now: int)
    requires Due(due, now)
    ensures !NotAfter(Checked(d, finding, now).lastChecked, due.lastChecked)
  {
  }

  // A step that does not take x leaves it waiting, with a whole batch fewer ahead of it if
  // the step is a selection, and no more than are added or lost otherwise.
  lemma StepAhead(s: State, step: Step, x: Id)
    requires Waits(s, x) && Enabled(s, step) && !Picks(step, x)
    ensures Waits(Next(s, step), x)
    ensures |Ahead(Next(s, step), x)| + (if step.Select? then BATCH else 0) <= |Ahead(s, x)| + Delay(s, step)
  {
    StepShape(s, step);
    var t := Next(s, step);
    match step {
      case Check(_, _, _) => CheckAhead(s, step, x);
      case Select(_, picks) => SelectTaken(s, picks, (set id | id in picks), x);
      case Pass(_) => AheadGrows(s, t, x, {});
      case Add(id) => AheadGrows(s, t, x, {id});
      case Crash(_) =>
        DistinctSize(s.batches[0]);
        AheadGrows(s, t, x, set id | id in s.batches[0]);
    }
  }

  lemma {:induction false} PassedOverCosts(s: State, steps: seq<Step>, x: Id)
    requires Waits(s, x) && Valid(s, steps) && forall i :: 0 <= i < |steps| ==> !Picks(steps[i], x)
    ensures Waits(Exec(s, steps), x)
    ensures BATCH * Selects(steps) + |Ahead(Exec(s, steps), x)| <= |Ahead(s, x)| + Delays(s, steps)
    decreases |steps|
  {
    if steps != [] {
      PassedOverCosts(s, steps[..|steps| - 1], x);
      StepAhead(Exec(s, steps[..|steps| - 1]), steps[|steps| - 1], x);
    }
  }

  // A due domain passed over by k selections had more than 50k others that were active when
  // its wait began, were added since, or whose check was lost.
  lemma RecheckIsFair(s: State, steps: seq<Step>, x: Id)
    requires Waits(s, x) && Valid(s, steps) && forall i :: 0 <= i < |steps| ==> !Picks(steps[i], x)
    ensures BATCH * Selects(steps) < |ActiveIds(s.domains)| + Delays(s, steps)
  {
    PassedOverCosts(s, steps, x);
    hide Waits, Valid, Exec, Delays, Selects, Picks;
    AheadFew(s, x);
  }

  lemma AheadFew(s: State, x: Id)
    requires |s.batches| == 1 && x in s.domains && Active(s.domains[x])
    ensures |Ahead(s, x)| < |ActiveIds(s.domains)|
  {
    SubsetSize(Ahead(s, x) + {x}, ActiveIds(s.domains));
  }

  // ---- Checked within ceil(n / 50) ticks ----

  // How many batches n domains are.
  function Batches(n: nat): nat {
    (n + BATCH - 1) / BATCH
  }

  lemma {:induction false} PrefixWith(s: State, steps: seq<Step>, c: nat) returns (k: nat)
    requires Valid(s, steps) && c <= Selects(steps)
    ensures k <= |steps| && Valid(s, steps[..k]) && Selects(steps[..k]) == c && Delays(s, steps[..k]) <= Delays(s, steps)
    decreases |steps|
  {
    if c == Selects(steps) {
      k := |steps|;
      assert steps[..k] == steps;
    } else {
      k := PrefixWith(s, steps[..|steps| - 1], c);
      assert steps[..|steps| - 1][..k] == steps[..k];
    }
  }

  // With none added and no check lost, a selection among the first ceil(n / 50) takes it.
  lemma TakenWithin(s: State, steps: seq<Step>, x: Id) returns (i: nat)
    requires Waits(s, x) && Valid(s, steps) && Delays(s, steps) == 0
    requires Selects(steps) >= Batches(|ActiveIds(s.domains)|)
    ensures i < |steps| && Picks(steps[i], x) && Selects(steps[..i]) < Batches(|ActiveIds(s.domains)|)
  {
    var c := Batches(|ActiveIds(s.domains)|);
    var k := PrefixWith(s, steps, c);
    if forall i :: 0 <= i < k ==> !Picks(steps[..k][i], x) {
      RecheckIsFair(s, steps[..k], x);
      assert false;
    }
    i :| 0 <= i < k && Picks(steps[..k][i], x);
    SelectsBefore(steps[..k], i);
    assert steps[..k][..i] == steps[..i];
  }

  lemma {:induction false} SelectsBefore(steps: seq<Step>, i: nat)
    requires i < |steps| && steps[i].Select?
    ensures Selects(steps[..i]) < Selects(steps)
    decreases |steps|
  {
    var before := steps[..|steps| - 1];
    if i < |before| {
      SelectsBefore(before, i);
      assert before[..i] == steps[..i];
    }
  }

  // Checked at some time from t on.
  predicate CheckedSince(s: State, x: Id, t: int) {
    x in s.domains && s.domains[x].lastChecked.Some? && s.domains[x].lastChecked.value >= t
  }

  lemma StepChecks(s: State, step: Step, x: Id, t: int)
    requires |s.batches| == 1 && Shape(s) && Enabled(s, step) && Delay(s, step) == 0 && t <= s.now
    requires CheckedSince(s, x, t) || x in s.batches[0]
    ensures CheckedSince(Next(s, step), x, t) || x in Next(s, step).batches[0]
  {
    if step.Check? {
      var batch := s.batches[0];
      assert forall id :: id in batch <==> id == batch[0] || id in batch[1..];
      assert batch[0] in batch;
    }
  }

  lemma StepKeeps(s: State, step: Step)
    requires Enabled(s, step)
    ensures |Next(s, step).batches| == |s.batches| && s.now <= Next(s, step).now
    ensures forall x :: Picks(step, x) && |s.batches| == 1 ==> x in Next(s, step).batches[0]
  {
  }

  lemma {:induction false} TakenIsChecked(s: State, steps: seq<Step>, x: Id, i: nat)
    requires |s.batches| == 1 && Shape(s) && Valid(s, steps) && Delays(s, steps) == 0
    requires i < |steps| && Picks(steps[i], x)
    ensures var t := Exec(s, steps);
            |t.batches| == 1 && Shape(t) && s.now <= t.now && (CheckedSince(t, x, s.now) || x in t.batches[0])
    decreases |steps|
  {
    hide Shape, Enabled, Next;
    var before, last := steps[..|steps| - 1], steps[|steps| - 1];
    RunShape(s, before);
    StepShape(Exec(s, before), last);
    StepKeeps(Exec(s, before), last);
    if i < |before| {
      TakenIsChecked(s, before, x, i);
      StepChecks(Exec(s, before), last, x, s.now);
    }
  }

  lemma {:induction false} RunShape(s: State, steps: seq<Step>)
    requires Shape(s) && Valid(s, steps)
    ensures Shape(Exec(s, steps)) && |Exec(s, steps).batches| == |s.batches| && s.now <= Exec(s, steps).now
    decreases |steps|
  {
    if steps != [] {
      RunShape(s, steps[..|steps| - 1]);
      StepShape(Exec(s, steps[..|steps| - 1]), steps[|steps| - 1]);
    }
  }

  // From any state a single checker can reach: with n active domains, none added and no check
  // lost, every due domain has been checked once ceil(n / 50) ticks are over.
  lemma DueIsChecked(init: State, start: seq<Step>, steps: seq<Step>, x: Id)
    requires Init(init) && |init.batches| == 1 && Valid(init, start)
    requires var s := Exec(init, start);
             && s.batches == [[]] && x in s.domains && Due(s.domains[x], s.now)
             && Valid(s, steps) && Delays(s, steps) == 0 && Exec(s, steps).batches == [[]]
             && Selects(steps) >= Batches(|ActiveIds(s.domains)|)
    ensures CheckedSince(Exec(Exec(init, start), steps), x, Exec(init, start).now)
  {
    StatusIsLatest(init, start);
    var s := Exec(init, start);
    var i := TakenWithin(s, steps, x);
    TakenIsChecked(s, steps, x, i);
  }
}
