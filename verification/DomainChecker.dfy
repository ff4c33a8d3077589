// The checker's tick (internal/worker/webhooks.go) on the domains table: a run of the recheck
// machine.
module DomainChecker {
  import opened Prelude
  import opened DomainRecheck

  lemma Older(x: Option<int>, y: Option<int>)
    ensures NotAfter(x, x) && (NotAfter(x, y) || NotAfter(y, x))
    ensures forall z :: NotAfter(x, y) && NotAfter(y, z) ==> NotAfter(x, z)
  {
  }

  lemma {:induction false} FirstDue(domains: map<Id, Domain>, ids: set<Id>)
    requires ids != {} && ids <= domains.Keys
    ensures exists id :: id in ids && forall x :: x in ids ==> NotAfter(domains[id].lastChecked, domains[x].lastChecked)
    decreases |ids|
  {
    var id :| id in ids;
    var rest := ids - {id};
    if rest == {} {
      assert forall x :: x in ids ==> x == id || x in rest;
    } else {
      FirstDue(domains, rest);
      var o :| o in rest && forall x :: x in rest ==> NotAfter(domains[o].lastChecked, domains[x].lastChecked);
      assert forall x :: x in ids ==> x == id || x in rest;
      Older(domains[id].lastChecked, domains[o].lastChecked);
      var best := if NotAfter(domains[id].lastChecked, domains[o].lastChecked) then id else o;
      hide NotAfter;
      assert best in ids && forall x :: x in ids ==> NotAfter(domains[best].lastChecked, domains[x].lastChecked);
    }
  }

  // fate says how the ith statement ends.
  class Store {
    const fate: nat -> Write
    var calls: nat
    var now: int
    var domains: map<Id, Domain>
    ghost var history: map<Id, seq<Finding>>

    constructor (fate: nat -> Write, now: int)
      ensures this.fate == fate && calls == 0 && this.now == now && domains == map[] && history == map[]
    {
      this.fate, this.now := fate, now;
      calls, domains, history := 0, map[], map[];
    }

    // The machine's state, with one checker that has batch left.
    ghost function Snapshot(batch: seq<Id>): State
      reads this
    {
      State(now, domains, [batch], history)
    }

    method Elapse() returns (ghost d: nat)
      modifies this`now
      ensures now == old(now) + d
    {
      var passed: nat := *;
      now := now + passed;
      d := passed;
    }

    method DomainsDueForRecheck(limit: nat) returns (due: Result<seq<Id>, ()>)
      modifies this`calls
      ensures calls == old(calls) + 1
      ensures due.Ok? <==> fate(old(calls)).Written?
      ensures due.Ok? ==> IsSelection(domains, now, limit, due.value)
    {
      var end := fate(calls);
      calls := calls + 1;
      if !end.Written? {
        return Err(());
      }
      var picks: seq<Id> := [];
      var all := set id | id in domains && Due(domains[id], now);
      var rest := all;
      while |picks| < limit && rest != {}
        invariant calls == old(calls) + 1
        invariant |picks| <= limit && Distinct(picks)
        invariant forall id :: id in all <==> id in picks || id in rest
        invariant forall id :: id in rest ==> id !in picks
        invariant forall p, id :: p in picks && id in rest ==> NotAfter(domains[p].lastChecked, domains[id].lastChecked)
        decreases rest
      {
        FirstDue(domains, rest);
        var next :| next in rest && forall x :: x in rest ==> NotAfter(domains[next].lastChecked, domains[x].lastChecked);
        picks := picks + [next];
        rest := rest - {next};
      }
      return Ok(picks);
    }

    // What the three statements about one domain share.
    ghost predicate Wrote(id: Id, finding: Finding, was: State)
      reads this
    {
      && now == was.now && calls > 0
      && domains == (if fate(calls - 1).Refused? then was.domains else CheckedRows(was.domains, id, finding, now))
      && history == (if fate(calls - 1).Refused? then was.history else Recorded(was.history, id, finding))
    }

    method MarkDomainVerified(id: Id) returns (ok: bool)
      modifies this`calls, this`domains, this`history
      ensures calls == old(calls) + 1 && Wrote(id, Proved, old(Snapshot([])))
      ensures ok <==> fate(old(calls)).Written?
    {
      var end := fate(calls);
      calls := calls + 1;
      if end.Refused? {
        return false;
      }
      if id in domains {
        var d := domains[id];
        var since := if d.verifiedAt.None? then Some(now) else d.verifiedAt;
        domains := domains[id := d.(status := Verified, verifiedAt := since, lastChecked := Some(now))];
      }
      history := Recorded(history, id, Proved);
      return end.Written?;
    }

    method SuspendDomain(id: Id) returns (ok: bool)
      modifies this`calls, this`domains, this`history
      ensures calls == old(calls) + 1 && Wrote(id, Absent, old(Snapshot([])))
      ensures ok <==> fate(old(calls)).Written?
    {
      var end := fate(calls);
      calls := calls + 1;
      if end.Refused? {
        return false;
      }
      if id in domains {
        domains := domains[id := domains[id].(status := Suspended, lastChecked := Some(now))];
      }
      history := Recorded(history, id, Absent);
      return end.Written?;
    }

    method TouchDomainCheck(id: Id) returns (ok: bool)
      modifies this`calls, this`domains, this`history
      ensures calls == old(calls) + 1 && Wrote(id, LookupFailed, old(Snapshot([])))
      ensures ok <==> fate(old(calls)).Written?
    {
      var end := fate(calls);
      calls := calls + 1;
      if end.Refused? {
        return false;
      }
      if id in domains {
        domains := domains[id := domains[id].(lastChecked := Some(now))];
      }
      return end.Written?;
    }
  }

  // ---- Runs in a world ----

  // How each statement ends, and what the ith look-up finds.
  datatype World = World(fate: nat -> Write, resolver: (nat, Id) -> Finding)

  // Statements made and domains looked up.
  datatype Rest = Rest(calls: nat, looked: seq<Id>)

  ghost predicate Follows(world: World, s: State, r: Rest, step: Step)
    requires Enabled(s, step)
  {
    var end := world.fate(r.calls);
    match step
    case Pass(_) => true
    case Select(c, _) => c == 0 && end.Written?
    case Check(c, finding, write) => c == 0 && finding == world.resolver(|r.looked|, s.batches[0][0]) && write == end
    case _ => false
  }

  ghost function Tally(world: World, s: State, r: Rest, step: Step): Rest
    requires Enabled(s, step) && Follows(world, s, r, step)
  {
    match step
    case Pass(_) => r
    case Check(_, _, _) => Rest(r.calls + 1, r.looked + [s.batches[0][0]])
    case _ => r.(calls := r.calls + 1)
  }

  ghost predicate Goes(world: World, s: State, r: Rest, trace: seq<Step>, t: State, q: Rest)
    decreases |trace|
  {
    if trace == [] then s == t && r == q
    else
      && Enabled(s, trace[0]) && Follows(world, s, r, trace[0])
      && Goes(world, Next(s, trace[0]), Tally(world, s, r, trace[0]), trace[1..], t, q)
  }

  lemma GoesOne(world: World, s: State, r: Rest, step: Step)
    requires Enabled(s, step) && Follows(world, s, r, step)
    ensures Goes(world, s, r, [step], Next(s, step), Tally(world, s, r, step))
  {
    hide Enabled, Follows, Next, Tally;
    assert [step][1..] == [];
  }

  lemma {:induction false} GoesOn(world: World, s: State, r: Rest, trace: seq<Step>, t: State, q: Rest,
                                  more: seq<Step>, u: State, p: Rest)
    requires Goes(world, s, r, trace, t, q) && Goes(world, t, q, more, u, p)
    ensures Goes(world, s, r, trace + more, u, p)
    decreases |trace|
  {
    hide Enabled, Follows, Next, Tally;
    if trace == [] {
      assert trace + more == more;
    } else {
      assert (trace + more)[0] == trace[0] && (trace + more)[1..] == trace[1..] + more;
      GoesOn(world, Next(s, trace[0]), Tally(world, s, r, trace[0]), trace[1..], t, q, more, u, p);
    }
  }

  // What a checker does in a world is a run of the recheck machine, without a crash.
  lemma {:induction false} GoesRuns(world: World, s: State, r: Rest, trace: seq<Step>, t: State, q: Rest)
    requires Goes(world, s, r, trace, t, q)
    ensures Valid(s, trace) && Exec(s, trace) == t
    ensures forall i :: 0 <= i < |trace| ==> !trace[i].Crash? && !trace[i].Add?
    decreases |trace|
  {
    hide Next, Tally;
    if trace != [] {
      GoesRuns(world, Next(s, trace[0]), Tally(world, s, r, trace[0]), trace[1..], t, q);
      RunsFrom(s, trace[0], trace[1..]);
      assert [trace[0]] + trace[1..] == trace;
    }
  }

  // A step and a run from where it leads are a run.
  lemma {:induction false} RunsFrom(s: State, step: Step, more: seq<Step>)
    requires Enabled(s, step) && Valid(Next(s, step), more)
    ensures Valid(s, [step] + more) && Exec(s, [step] + more) == Exec(Next(s, step), more)
    decreases |more|
  {
    hide Next, Enabled;
    var all := [step] + more;
    if more == [] {
      assert all[..0] == [] && all[0] == step;
    } else {
      RunsFrom(s, step, more[..|more| - 1]);
      assert all[..|all| - 1] == [step] + more[..|more| - 1];
    }
  }

  // One look-up and its write.
  lemma CheckGoes(world: World, s: State, r: Rest, d: nat, finding: Finding)
    requires |s.batches| == 1 && s.batches[0] != [] && finding == world.resolver(|r.looked|, s.batches[0][0])
    ensures var id, refused := s.batches[0][0], world.fate(r.calls).Refused?;
            Goes(world, s, r, [Pass(d), Check(0, finding, world.fate(r.calls))],
                 State(s.now + d, if refused then s.domains else CheckedRows(s.domains, id, finding, s.now + d),
                       [s.batches[0][1..]], if refused then s.history else Recorded(s.history, id, finding)),
                 Rest(r.calls + 1, r.looked + [id]))
  {
    hide Goes, CheckedRows, Recorded;
    var waited, step := s.(now := s.now + d), Check(0, finding, world.fate(r.calls));
    GoesOne(world, s, r, Pass(d));
    GoesOne(world, waited, r, step);
    assert Next(s, Pass(d)) == waited && Tally(world, s, r, Pass(d)) == r;
    GoesOn(world, s, r, [Pass(d)], waited, r, [step], Next(waited, step), Tally(world, waited, r, step));
    assert Next(waited, step).batches == [s.batches[0][1..]];
    assert [Pass(d)] + [step] == [Pass(d), step];
  }

  lemma SelectGoes(world: World, s: State, r: Rest, picks: seq<Id>)
    requires s.batches == [[]] && world.fate(r.calls).Written? && IsSelection(s.domains, s.now, BATCH, picks)
    ensures Goes(world, s, r, [Select(0, picks)], s.(batches := [picks]), r.(calls := r.calls + 1))
  {
    hide Goes, IsSelection;
    GoesOne(world, s, r, Select(0, picks));
    assert s.batches[0 := picks] == [picks];
  }

  predicate Inner(trace: seq<Step>) {
    forall i :: 0 <= i < |trace| ==> !trace[i].Select?
  }

  // A round selects once and looks up every domain selected, in order.
  ghost predicate Round(world: World, s: State, r: Rest, trace: seq<Step>, t: State, q: Rest) {
    && Goes(world, s, r, trace, t, q)
    && trace != [] && trace[0].Select? && Inner(trace[1..])
    && q.looked == r.looked + trace[0].picks
  }

  // ---- The program ----

  class Checker {
    const store: Store
    const resolver: (nat, Id) -> Finding
    var looked: seq<Id>

    constructor (store: Store, resolver: (nat, Id) -> Finding)
      ensures this.store == store && this.resolver == resolver && looked == []
    {
      this.store, this.resolver := store, resolver;
      looked := [];
    }

    ghost function Facts(): World {
      World(store.fate, resolver)
    }

    ghost function Books(): Rest
      reads this, store
    {
      Rest(store.calls, looked)
    }

    // One domain: look, then write what was found. A lookup that failed says nothing about
    // the domain; every other error is taken for a proof that is gone.
    method CheckOne(id: Id, ghost batch: seq<Id>) returns (ghost trace: seq<Step>)
      requires batch != [] && batch[0] == id
      modifies this`looked, store
      ensures Goes(Facts(), old(store.Snapshot(batch)), old(Books()), trace, store.Snapshot(batch[1..]), Books())
      ensures Inner(trace) && looked == old(looked) + [id]
    {
      hide Goes, CheckedRows, Recorded;
      ghost var start, r := store.Snapshot(batch), Books();
      ghost var d := store.Elapse();
      var finding := resolver(|looked|, id);
      looked := looked + [id];
      CheckGoes(Facts(), start, r, d, finding);
      var ok;
      match finding {
        case Proved => ok := store.MarkDomainVerified(id);
        case LookupFailed => ok := store.TouchDomainCheck(id);
        case Absent => ok := store.SuspendDomain(id);
      }
      trace := [Pass(d), Check(0, finding, store.fate(r.calls))];
    }

    // Nothing happens exactly if the selection fails.
    method Tick() returns (ok: bool, ghost trace: seq<Step>)
      modifies this`looked, store
      ensures ok <==> store.fate(old(store.calls)).Written?
      ensures !ok ==> trace == [] && store.Snapshot([]) == old(store.Snapshot([])) && Books() == old(Books()).(calls := old(store.calls) + 1)
      ensures ok ==> Round(Facts(), old(store.Snapshot([])), old(Books()), trace, store.Snapshot([]), Books())
    {
      hide Goes, IsSelection;
      ghost var start, r := store.Snapshot([]), Books();
      trace := [];
      var due := store.DomainsDueForRecheck(BATCH);
      if due.Err? {
        return false, trace;
      }
      SelectGoes(Facts(), start, r, due.value);
      trace := [Select(0, due.value)];
      for i := 0 to |due.value|
        invariant Goes(Facts(), start, r, trace, store.Snapshot(due.value[i..]), Books())
        invariant |trace| > 0 && trace[0] == Select(0, due.value) && Inner(trace[1..])
        invariant looked == old(looked) + due.value[..i]
      {
        ghost var before, b := store.Snapshot(due.value[i..]), Books();
        ghost var more := CheckOne(due.value[i], due.value[i..]);
        assert due.value[i..][1..] == due.value[i + 1..];
        GoesOn(Facts(), start, r, trace, before, b, more, store.Snapshot(due.value[i + 1..]), Books());
        assert (trace + more)[1..] == trace[1..] + more;
        trace := trace + more;
      }
      assert due.value[|due.value|..] == [] && due.value[..|due.value|] == due.value;
      ok := true;
    }
  }
}
