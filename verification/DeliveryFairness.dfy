// No message waits for ever behind older ones.
module DeliveryFairness {
  import opened Prelude
  import opened MessageQueue
  import opened DeliveryProtocol
  import LQ = LeaseQueue

  // The claim could have taken this message and did not.
  predicate PassesOver(s: State, step: Step, id: Id) {
    step.Claim? && id in s.messages && Due(s.messages[id], s.now) && id !in step.busy && id !in step.picks
  }

  ghost function TimesPassedOver(s: State, steps: seq<Step>, ceiling: int, id: Id): nat
    requires Valid(s, steps, ceiling)
    decreases |steps|
  {
    if steps == [] then 0
    else
      var before := steps[..|steps| - 1];
      TimesPassedOver(s, before, ceiling, id) + if PassesOver(Exec(s, before, ceiling), steps[|steps| - 1], id) then 1 else 0
  }

  lemma {:induction false} MessagesKept(s: State, steps: seq<Step>, ceiling: int, id: Id)
    requires Inv(s) && Valid(s, steps, ceiling) && id in s.messages
    ensures var t := Exec(s, steps, ceiling); id in t.messages && t.messages[id].createdAt == s.messages[id].createdAt
    decreases |steps|
  {
    hide LQ.Inv;
    if steps != [] {
      var before := steps[..|steps| - 1];
      MessagesKept(s, before, ceiling, id);
      RunRefines(s, before, ceiling);
      RowKept(Exec(s, before, ceiling), steps[|steps| - 1], ceiling, id);
    }
  }

  lemma RowKept(s: State, step: Step, ceiling: int, id: Id)
    requires Enabled(s, step, ceiling) && id in s.messages
    ensures var t := Next(s, step, ceiling); id in t.messages && t.messages[id].createdAt == s.messages[id].createdAt
  {
  }

  // Every message in the table that is at least as old, other than id itself.
  ghost predicate Elders(messages: map<Id, Message>, id: Id, elders: seq<Id>) {
    && Distinct(elders)
    && id in messages
    && forall x :: x in messages && x != id && messages[x].createdAt <= messages[id].createdAt ==> x in elders
  }

  lemma {:induction false} ClaimsInAll(step: LQ.Step<Id>, keys: seq<Id>, left: set<Id>)
    requires step.Grant? && Distinct(keys)
    requires left == (set k | k in step.keys && k in keys)
    ensures LQ.ClaimsIn(step, keys) == |left|
  {
    if keys == [] {
      assert left == {};
    } else {
      var rest := set k | k in step.keys && k in keys[1..];
      assert keys[0] !in keys[1..];
      assert left == if keys[0] in step.keys then rest + {keys[0]} else rest;
      ClaimsInAll(step, keys[1..], rest);
    }
  }

  // A claim that passes the message over takes a full batch of its elders.
  lemma PassingTakesElders(s: State, step: Step, ceiling: int, id: Id, elders: seq<Id>)
    requires Enabled(s, step, ceiling) && PassesOver(s, step, id)
    requires Elders(s.messages, id, elders)
    ensures LQ.ClaimsIn(AbsStep(step)[0], elders) == BATCH
  {
    var grant := AbsStep(step)[0];
    var left := set k | k in grant.keys && k in elders;
    assert left == set k | k in grant.keys;
    ClaimsInAll(grant, elders, left);
    DistinctSize(grant.keys);
  }

  lemma {:induction false} PassedOverCosts(s: State, steps: seq<Step>, ceiling: int, id: Id, elders: seq<Id>)
    requires Inv(s) && Valid(s, steps, ceiling) && id in s.messages
    requires Elders(Exec(s, steps, ceiling).messages, id, elders)
    ensures BATCH * TimesPassedOver(s, steps, ceiling, id) <= LQ.Claims(AbsRun(steps), elders)
    decreases |steps|
  {
    if steps != [] {
      hide Inv;
      var before, last := steps[..|steps| - 1], steps[|steps| - 1];
      var t, u := Exec(s, before, ceiling), Exec(s, steps, ceiling);
      MessagesKept(s, before, ceiling, id);
      forall x | x in t.messages
        ensures x in u.messages && u.messages[x].createdAt == t.messages[x].createdAt
      {
        RowKept(t, last, ceiling, x);
      }
      RowKept(t, last, ceiling, id);
      PassedOverCosts(s, before, ceiling, id, elders);
      if AbsStep(last) == [] {
        assert AbsRun(steps) == AbsRun(before);
      } else {
        assert AbsRun(steps)[..|AbsRun(steps)| - 1] == AbsRun(before);
        if PassesOver(t, last, id) {
          PassingTakesElders(t, last, ceiling, id, elders);
        }
      }
    }
  }

  // A message with k elders is passed over at most 8k/10 times while it is due, over any
  // run from any reachable state: each time costs ten claims of elders, and no message is
  // claimed more than eight times.
  lemma NoStarvation(s: State, steps: seq<Step>, ceiling: int, id: Id, elders: seq<Id>)
    requires Inv(s) && Valid(s, steps, ceiling) && id in s.messages
    requires Elders(Exec(s, steps, ceiling).messages, id, elders)
    ensures 10 * TimesPassedOver(s, steps, ceiling, id) <= 8 * |elders|
  {
    MessagesKept(s, steps, ceiling, id);
    PassedOverCosts(s, steps, ceiling, id, elders);
    RunRefines(s, steps, ceiling);
    LQ.ClaimsBounded(Abs(s), AbsRun(steps), elders);
  }
}
