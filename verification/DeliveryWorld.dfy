// What the worker's program meets: how each statement ends, what the engine answers, which
// rows others have locked.
//
// A world fixes all of it beforehand, statement by statement and handoff by handoff, so a
// program cannot pass off a statement it left out as one that failed. Goes is a run of one
// worker of the delivery protocol in a world, together with what it does to the webhook and
// suppression tables.
module DeliveryWorld {
  import opened Prelude
  import opened Utf8
  import opened MessageQueue
  import opened DeliveryProtocol
  import Bounce
  import DeliveryEvents
  import Suppressions
  import WebhookQueue

  datatype Response = Response(reply: Reply, reason: Bytes)

  // fate, posts and shuns are the ends of the statements on the three tables; engine is what
  // signing and the engine make of the ith message handed over. lower is strings.ToLower;
  // payload is BuildPayload, None for an error.
  datatype World = World(
    ceiling: int, fate: nat -> Write, locked: nat -> set<Id>, engine: (nat, Claimed) -> Response,
    posts: nat -> Write, endpoints: map<int, WebhookQueue.Endpoint>,
    payload: (string, string, string, Bytes, int) -> Option<Bytes>,
    shuns: nat -> Write, list: Suppressions.Platform, lower: string -> string)

  // Where a worker is beyond the protocol's state: statements made on each table, messages
  // handed over, and the two tables it writes besides its own.
  datatype Rest = Rest(calls: nat, posted: nat, shunned: nat, handed: seq<Claimed>,
                       deliveries: map<WebhookQueue.Key, WebhookQueue.Delivery>,
                       rows: map<Suppressions.Hash, Suppressions.Row>)

  // ---- The suppressions a refusal leads to ----

  function SuppressionReason(k: Bounce.Kind): string {
    if k == Bounce.Complaint then "complaint" else "hard_bounce"
  }

  ghost function Ground(lower: string -> string, reason: Bytes): Bounce.Ground {
    Bounce.GroundOf(lower, Chars(reason))
  }

  // Whether a permanent refusal condemns the address.
  ghost predicate Condemns(lower: string -> string, reason: Bytes) {
    Bounce.Suppresses(Bounce.KindOf(Ground(lower, reason)))
  }

  ghost function Entry(world: World, reason: Bytes, id: Id, address: string): Suppressions.Op {
    var ground := Ground(world.lower, reason);
    Suppressions.Suppress(address, SuppressionReason(Bounce.KindOf(ground)), Bounce.Explanation(ground), id)
  }

  // The list after one statement for each recipient, the first being statement from.
  ghost function Barred(world: World, from: nat, rows: map<Suppressions.Hash, Suppressions.Row>, recipients: seq<string>,
                        reason: Bytes, id: Id): map<Suppressions.Hash, Suppressions.Row> {
    if recipients == [] then rows
    else
      var n := |recipients| - 1;
      var before := Barred(world, from, rows, recipients[..n], reason, id);
      if world.shuns(from + n).Refused? then before
      else Suppressions.Apply(world.list, before, Entry(world, reason, id, recipients[n]))
  }

  ghost predicate Names(p: Suppressions.Platform, recipients: seq<string>, h: Suppressions.Hash) {
    exists i :: 0 <= i < |recipients| && h == Suppressions.HashOf(p, recipients[i])
  }

  // Every recipient whose statement was not refused is listed; what was listed keeps its row;
  // a new row is a recipient's, and its reason is 'complaint' for a complaint and
  // 'hard_bounce' otherwise.
  ghost predicate Bars(world: World, from: nat, rows: map<Suppressions.Hash, Suppressions.Row>, recipients: seq<string>,
                       reason: Bytes, after: map<Suppressions.Hash, Suppressions.Row>) {
    && (forall i :: 0 <= i < |recipients| && !world.shuns(from + i).Refused? ==>
          Suppressions.Listed(world.list, after, recipients[i]))
    && (forall h :: h in rows ==> h in after && after[h] == rows[h])
    && (forall h :: h in after && h !in rows ==>
          && Names(world.list, recipients, h)
          && after[h].reason == if Ground(world.lower, reason).Complained? then "complaint" else "hard_bounce")
  }

  lemma {:induction false} BarredMeaning(world: World, from: nat, rows: map<Suppressions.Hash, Suppressions.Row>,
                                         recipients: seq<string>, reason: Bytes, id: Id)
    ensures Bars(world, from, rows, recipients, reason, Barred(world, from, rows, recipients, reason, id))
  {
    hide Entry, Suppressions.Apply;
    if recipients != [] {
      var n := |recipients| - 1;
      var before := Barred(world, from, rows, recipients[..n], reason, id);
      BarredMeaning(world, from, rows, recipients[..n], reason, id);
      BarsMore(world, from, rows, recipients, reason, id, before);
    }
    hide Suppressions.HashOf, Ground, Names;
  }

  lemma BarsMore(world: World, from: nat, rows: map<Suppressions.Hash, Suppressions.Row>, recipients: seq<string>,
                 reason: Bytes, id: Id, before: map<Suppressions.Hash, Suppressions.Row>)
    requires recipients != [] && Bars(world, from, rows, recipients[..|recipients| - 1], reason, before)
    ensures var n := |recipients| - 1;
            Bars(world, from, rows, recipients, reason,
                 if world.shuns(from + n).Refused? then before
                 else Suppressions.Apply(world.list, before, Entry(world, reason, id, recipients[n])))
  {
    hide Ground, Bounce.Explanation, Suppressions.HashOf, Suppressions.Apply;
    var n := |recipients| - 1;
    var op := Entry(world, reason, id, recipients[n]);
    CauseOf(Ground(world.lower, reason));
    Suppressions.SuppressGrows(world.list, before, op);
    NamesMore(world.list, recipients);
    assert forall i :: 0 <= i < n ==> recipients[..n][i] == recipients[i];
    hide Names, Entry, SuppressionReason;
  }

  lemma NamesMore(p: Suppressions.Platform, recipients: seq<string>)
    requires recipients != []
    ensures forall h :: Names(p, recipients, h) <==>
              Names(p, recipients[..|recipients| - 1], h) || h == Suppressions.HashOf(p, recipients[|recipients| - 1])
  {
    hide Suppressions.HashOf;
    var n := |recipients| - 1;
    assert forall i :: 0 <= i < n ==> recipients[..n][i] == recipients[i];
  }

  lemma CauseOf(ground: Bounce.Ground)
    ensures SuppressionReason(Bounce.KindOf(ground)) == if ground.Complained? then "complaint" else "hard_bounce"
  {
  }

  // ---- One step in a world ----

  // The first message of the worker's batch, as its claim returned it.
  predicate HasMessage(s: State) {
    && Active(s, 0) && s.workers[0].batch[0].id in s.messages
    && s.messages[s.workers[0].batch[0].id].recipients.Some?
  }

  function InHand(s: State): Claimed
    requires HasMessage(s)
  {
    var job := s.workers[0].batch[0];
    Claimed(job.id, s.messages[job.id].recipients.value, job.attempts)
  }

  function PayloadOf(world: World, note: Note, reason: Bytes, now: int): Option<Bytes> {
    world.payload(DeliveryEvents.EventId(note), note.kind, note.id, reason, now)
  }

  // A statement ends as fate has it, save that the database refuses a text last_error does
  // not take and an event about no message.
  ghost predicate Follows(world: World, s: State, r: Rest, step: Step)
    requires Enabled(s, step, world.ceiling)
  {
    var end := world.fate(r.calls);
    match step
    case Pass(_) => true
    case Enqueue(_, _, _, _) => false
    case Crash(_) => false
    case Check(w) => w == 0 && (world.ceiling > 0 ==> end.Written?)
    case GiveUp(w) => w == 0 && end.Refused?
    case Claim(w, picks, busy, received) =>
      w == 0 && !end.Refused? && busy == world.locked(r.calls) && (received <==> end.Written? && AllReadable(s.messages, picks))
    case Answer(w, reply, reason) =>
      w == 0 && HasMessage(s) && Response(reply, reason) == world.engine(|r.handed|, InHand(s))
    case Mark(w, clock, write) =>
      var stage := s.workers[w].stage;
      && w == 0 && clock == s.now
      && write == if CanMark(MarkFor(stage.reply, stage.reason, s.workers[w].batch[0].attempts, clock)) then end else Refused
    case Record(w, write) => w == 0 && write == if s.workers[w].batch[0].id in s.messages then end else Refused
    case Publish(w, done) =>
      w == 0 && (done <==> PayloadOf(world, NoteOf(s, w), s.workers[w].stage.detail, s.now).Some? && !world.posts(r.posted).Refused?)
  }

  ghost function Tally(world: World, s: State, r: Rest, step: Step): Rest
    requires Enabled(s, step, world.ceiling) && Follows(world, s, r, step)
  {
    match step
    case Check(_) => if world.ceiling > 0 then r.(calls := r.calls + 1) else r
    case Answer(_, reply, reason) => Handed(world, r, InHand(s), reply, reason)
    case Publish(_, done) =>
      Posted(world, r, NoteOf(s, 0), s.workers[0].stage.detail, s.now)
    case Pass(_) => r
    case _ => r.(calls := r.calls + 1)
  }

  // The message is handed over, and its recipients are put on the list if they are refused for
  // good and condemned.
  ghost function Handed(world: World, r: Rest, msg: Claimed, reply: Reply, reason: Bytes): Rest {
    var next := r.(handed := r.handed + [msg]);
    if reply.Permanent? && Condemns(world.lower, reason) then
      next.(shunned := r.shunned + |msg.recipients|,
            rows := Barred(world, r.shunned, r.rows, msg.recipients, reason, msg.id))
    else next
  }

  // One payload for every active endpoint that has none for the event, if the payload can be
  // made and the statement goes well.
  ghost function Posted(world: World, r: Rest, note: Note, reason: Bytes, now: int): Rest {
    var payload := PayloadOf(world, note, reason, now);
    if payload.None? then r
    else if world.posts(r.posted).Refused? then r.(posted := r.posted + 1)
    else r.(posted := r.posted + 1,
            deliveries := WebhookQueue.EnqueueRows(world.endpoints, r.deliveries, DeliveryEvents.EventId(note), note.id,
                                                   payload.value, now))
  }

  // ---- Runs in a world ----

  ghost predicate Goes(world: World, s: State, r: Rest, trace: seq<Step>, t: State, q: Rest)
    decreases |trace|
  {
    if trace == [] then s == t && r == q
    else
      && Enabled(s, trace[0], world.ceiling) && Follows(world, s, r, trace[0])
      && Goes(world, Next(s, trace[0], world.ceiling), Tally(world, s, r, trace[0]), trace[1..], t, q)
  }

  lemma GoesNone(world: World, s: State, r: Rest)
    ensures Goes(world, s, r, [], s, r)
  {
  }

  lemma GoesOne(world: World, s: State, r: Rest, step: Step)
    requires Enabled(s, step, world.ceiling) && Follows(world, s, r, step)
    ensures Goes(world, s, r, [step], Next(s, step, world.ceiling), Tally(world, s, r, step))
  {
    hide Enabled, Follows, Next, Tally;
    assert [step][1..] == [];
    GoesNone(world, Next(s, step, world.ceiling), Tally(world, s, r, step));
  }

  lemma {:induction false} GoesOn(world: World, s: State, r: Rest, trace: seq<Step>, t: State, q: Rest,
                                  more: seq<Step>, u: State, p: Rest)
    requires Goes(world, s, r, trace, t, q) && Goes(world, t, q, more, u, p)
    ensures Goes(world, s, r, trace + more, u, p)
    decreases |trace|
  {
    hide Enabled, Follows, Next, Tally;
    if trace == [] {
      assert trace + more == more;
    } else {
      assert (trace + more)[0] == trace[0] && (trace + more)[1..] == trace[1..] + more;
      GoesOn(world, Next(s, trace[0], world.ceiling), Tally(world, s, r, trace[0]), trace[1..], t, q, more, u, p);
    }
  }

  lemma GoesMore(world: World, s: State, r: Rest, trace: seq<Step>, t: State, q: Rest, step: Step)
    requires Goes(world, s, r, trace, t, q) && Enabled(t, step, world.ceiling) && Follows(world, t, q, step)
    ensures Goes(world, s, r, trace + [step], Next(t, step, world.ceiling), Tally(world, t, q, step))
  {
    hide Enabled, Follows, Next, Tally, Goes;
    GoesOne(world, t, q, step);
    GoesOn(world, s, r, trace, t, q, [step], Next(t, step, world.ceiling), Tally(world, t, q, step));
  }

  // What a worker does in a world is a run of the delivery protocol in which it never crashes,
  // so whatever holds of every run of that machine holds of it.
  lemma {:induction false} GoesRuns(world: World, s: State, r: Rest, trace: seq<Step>, t: State, q: Rest)
    requires Goes(world, s, r, trace, t, q)
    ensures Runs(s, trace, t, world.ceiling)
    ensures forall i :: 0 <= i < |trace| ==> !trace[i].Crash? && !trace[i].Enqueue?
    decreases |trace|
  {
    hide Next, Tally, Runs;
    RunsNone(s, world.ceiling);
    if trace != [] {
      var next := Next(s, trace[0], world.ceiling);
      RunsMore(s, [], s, trace[0], world.ceiling);
      GoesRuns(world, next, Tally(world, s, r, trace[0]), trace[1..], t, q);
      assert [] + [trace[0]] == [trace[0]];
      RunsOn(s, [trace[0]], next, trace[1..], t, world.ceiling);
      assert [trace[0]] + trace[1..] == trace;
    }
  }
}
