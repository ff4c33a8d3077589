// internal/store/messages.go and the quota test of internal/httpapi/send.go: accepting
// messages, many requests at a time.
//
// A statement is one step and a transaction's writes are its own until it commits. Two
// waits of the database are modelled: an insert waits while another open transaction has
// inserted the same key, and the load of a record while another has it locked. now() is the
// start of the transaction.
module Intake {
  import opened Prelude
  import opened Utf8
  import opened Backoff
  import RW = RateWindow

  type Id = string

  datatype Request = Request(id: Id, apiKey: int, key: string, hash: Bytes)

  datatype Row = Row(id: Id, apiKey: int, createdAt: int)

  datatype Key = Key(apiKey: int, key: string)

  // expires_at is written and never read, so it is no part of a record.
  datatype Record = Record(hash: Bytes, messageId: Option<Id>)

  datatype Tables = Tables(messages: seq<Row>, records: map<Key, Record>)

  datatype Response = New(id: Id) | Replayed(id: Id) | Mismatch | InFlight | Failed

  function KeyOf(r: Request): Key {
    Key(r.apiKey, r.key)
  }

  predicate HasMessage(t: Tables, id: Id) {
    exists i :: 0 <= i < |t.messages| && t.messages[i].id == id
  }

  // The message the LEFT JOIN finds.
  function Joined(t: Tables, r: Record): Option<Id> {
    if r.messageId.Some? && HasMessage(t, r.messageId.value) then r.messageId else None
  }

  function Stored(t: Tables, r: Request, at: int): Tables {
    Tables(t.messages + [Row(r.id, r.apiKey, at)],
           if r.key == "" then t.records else t.records[KeyOf(r) := Record(r.hash, Some(r.id))])
  }

  // ---- One request at a time ----

  function Serial(t: Tables, r: Request, at: int): (Tables, Response) {
    if r.key != "" && KeyOf(r) in t.records then
      var record := t.records[KeyOf(r)];
      if record.hash != r.hash then (t, Mismatch)
      else match Joined(t, record) case None => (t, InFlight) case Some(id) => (t, Replayed(id))
    else if HasMessage(t, r.id) then (t, Failed)
    else (Stored(t, r, at), New(r.id))
  }

  // A request as it took effect. at is when its transaction began; told says whether the
  // client got the response, or an error because the commit was not confirmed.
  datatype Entry = Entry(request: Request, at: int, response: Response, told: bool)

  const EMPTY := Tables([], map[])

  function Replay(log: seq<Entry>): Tables {
    if log == [] then EMPTY
    else Serial(Replay(log[..|log| - 1]), log[|log| - 1].request, log[|log| - 1].at).0
  }

  ghost predicate Answers(log: seq<Entry>, i: nat)
    requires i < |log|
  {
    log[i].response == Serial(Replay(log[..i]), log[i].request, log[i].at).1
  }

  // The log is a serial run: each response is the one this order gives.
  ghost predicate Legal(log: seq<Entry>) {
    forall i :: 0 <= i < |log| ==> Answers(log, i)
  }

  // The entry that made a key's message, if any.
  ghost predicate Makes(log: seq<Entry>, i: nat, key: Key) {
    i < |log| && log[i].response.New? && log[i].request.key != "" && KeyOf(log[i].request) == key
  }

  lemma ReplayStep(log: seq<Entry>, e: Entry)
    ensures Replay(log + [e]) == Serial(Replay(log), e.request, e.at).0
    ensures Legal(log + [e]) <==> Legal(log) && e.response == Serial(Replay(log), e.request, e.at).1
  {
    hide Serial;
    var more := log + [e];
    assert more[..|log|] == log;
    forall i | 0 <= i < |log|
      ensures Answers(more, i) <==> Answers(log, i)
    {
      assert more[..i] == log[..i];
    }
    assert Legal(more) ==> Answers(more, |log|);
  }

  // The records of a serial run are what its makers left, each linking a stored message.
  ghost predicate RecordsFollow(log: seq<Entry>, t: Tables) {
    && (forall i: nat, key :: Makes(log, i, key) ==>
          key in t.records && t.records[key] == Record(log[i].request.hash, Some(log[i].request.id)))
    && (forall key :: key in t.records ==> Made(log, key))
    && (forall key :: key in t.records ==> Joined(t, t.records[key]).Some?)
  }

  ghost predicate Made(log: seq<Entry>, key: Key) {
    exists i: nat :: Makes(log, i, key)
  }

  lemma {:induction false} RecordsMeaning(log: seq<Entry>)
    requires Legal(log)
    ensures RecordsFollow(log, Replay(log))
  {
    if log != [] {
      var before, e := log[..|log| - 1], log[|log| - 1];
      assert log == before + [e];
      ReplayStep(before, e);
      RecordsMeaning(before);
      RecordsStep(before, e);
    }
  }

  lemma MakesStep(before: seq<Entry>, e: Entry)
    ensures forall i: nat, key :: i < |before| ==> (Makes(before + [e], i, key) <==> Makes(before, i, key))
    ensures forall key :: Makes(before + [e], |before|, key) <==>
                          e.response.New? && e.request.key != "" && KeyOf(e.request) == key
    ensures forall i: nat, key :: Makes(before + [e], i, key) ==> i <= |before|
    ensures forall i: nat, key :: Makes(before, i, key) ==> i < |before| && before[i] == (before + [e])[i]
  {
  }

  lemma SerialMakes(t: Tables, r: Request, at: int)
    ensures var (u, response) := Serial(t, r, at);
            && (response.New? && r.key != "" ==>
                  KeyOf(r) in u.records && u.records[KeyOf(r)] == Record(r.hash, Some(r.id)) && KeyOf(r) !in t.records)
            && (forall key :: key in u.records && key !in t.records ==> response.New? && r.key != "" && key == KeyOf(r))
            && (forall record: Record :: Joined(t, record).Some? ==> Joined(u, record).Some?)
  {
    SerialGrows(t, r, at);
  }

  lemma RecordsStep(before: seq<Entry>, e: Entry)
    requires RecordsFollow(before, Replay(before)) && e.response == Serial(Replay(before), e.request, e.at).1
    ensures RecordsFollow(before + [e], Serial(Replay(before), e.request, e.at).0)
  {
    MakesStep(before, e);
    SerialMakes(Replay(before), e.request, e.at);
    SerialGrows(Replay(before), e.request, e.at);
    hide Makes, Serial, Joined, HasMessage, Replay;
    var log, s, t := before + [e], Replay(before), Serial(Replay(before), e.request, e.at).0;
    forall key | key in t.records
      ensures Made(log, key)
    {
      if key in s.records {
        assert Made(before, key);
        var i: nat :| Makes(before, i, key);
        assert Makes(log, i, key);
      } else {
        assert Makes(log, |before|, key);
      }
    }
  }

  // Nothing stored is ever changed or removed.
  lemma SerialGrows(t: Tables, r: Request, at: int)
    ensures var u := Serial(t, r, at).0;
            && t.messages <= u.messages
            && (forall id :: HasMessage(t, id) ==> HasMessage(u, id))
            && (forall key :: key in t.records ==> key in u.records && u.records[key] == t.records[key])
            && (forall key :: key in u.records && key !in t.records ==> r.key != "" && key == KeyOf(r) && Joined(u, u.records[key]).Some?)
  {
    var u := Serial(t, r, at).0;
    forall id | HasMessage(t, id)
      ensures HasMessage(u, id)
    {
      var i :| 0 <= i < |t.messages| && t.messages[i].id == id;
      assert u.messages[i].id == id;
    }
    if u != t {
      assert u.messages[|t.messages|].id == r.id;
    }
  }

  // What a key means. The first request that gets through makes the message; from then on
  // the same request is told of that message and every other one is refused, and before then
  // a request can fail only for an id already taken. It is never told "in flight".
  lemma KeyMeaning(log: seq<Entry>, j: nat)
    requires Legal(log) && j < |log| && log[j].request.key != ""
    ensures forall i: nat :: i < j && Makes(log, i, KeyOf(log[j].request)) ==>
              log[j].response == if log[i].request.hash == log[j].request.hash then Replayed(log[i].request.id) else Mismatch
    ensures (forall i: nat :: i < j ==> !Makes(log, i, KeyOf(log[j].request))) ==> log[j].response in {New(log[j].request.id), Failed}
  {
    var before, key := log[..j], KeyOf(log[j].request);
    forall i | 0 <= i < j
      ensures Answers(before, i) && (Makes(before, i, key) <==> Makes(log, i, key))
    {
      assert Answers(log, i);
      assert before[..i] == log[..i];
    }
    RecordsMeaning(before);
    assert Answers(log, j);
    forall i: nat | i < j && Makes(log, i, key)
      ensures log[j].response == if log[i].request.hash == log[j].request.hash then Replayed(log[i].request.id) else Mismatch
    {
      assert Makes(before, i, key);
    }
    if key in Replay(before).records {
      assert Made(before, key);
      var i: nat :| Makes(before, i, key);
      assert Makes(log, i, key);
    }
  }

  lemma NeverInFlight(log: seq<Entry>, j: nat)
    requires Legal(log) && j < |log|
    ensures log[j].response != InFlight
  {
    assert Answers(log, j);
    if log[j].request.key != "" {
      KeyMeaning(log, j);
      if i: nat :| i < j && Makes(log, i, KeyOf(log[j].request)) {
        assert log[j].response in {Replayed(log[i].request.id), Mismatch};
      }
    }
  }

  // At most one message is ever made for a key, and every success names it.
  lemma OncePerKey(log: seq<Entry>, i: nat, j: nat)
    requires Legal(log) && i < j < |log|
    requires log[i].request.key != "" && KeyOf(log[i].request) == KeyOf(log[j].request)
    requires (log[i].response.New? || log[i].response.Replayed?) && (log[j].response.New? || log[j].response.Replayed?)
    ensures log[j].response == Replayed(log[i].response.id) && log[i].request.hash == log[j].request.hash
  {
    KeyMeaning(log, i);
    KeyMeaning(log, j);
    var key := KeyOf(log[i].request);
    assert log[i].response.New? ==> Makes(log, i, key);
    if m: nat :| m < i && Makes(log, m, key) {
      assert m < j;
    }
  }

  // ---- Many requests at a time ----

  // Claimed: the key's record is inserted; Inserted: the message too; Linked: and the link.
  datatype Phase =
    | Idle
    | Admitted(req: Request)
    | Begun(req: Request, at: int)
    | Conflicted(req: Request, at: int)
    | Replaying(req: Request, at: int, id: Id)
    | Claimed(req: Request, at: int)
    | Inserted(req: Request, at: int)
    | Linked(req: Request, at: int)

  datatype State = State(now: int, tables: Tables, procs: seq<Phase>, log: seq<Entry>)

  datatype Step =
    | Pass(d: nat)
    | Admit(p: nat, req: Request)
    | Begin(p: nat)
    | Claim(p: nat)
    | Load(p: nat)
    | Insert(p: nat)
    | Link(p: nat)
    | Commit(p: nat, write: Write)
    | Abort(p: nat)

  // Messages of one API key created after t.
  function SendsAfter(rows: seq<Row>, apiKey: int, t: int): nat {
    if rows == [] then 0
    else SendsAfter(rows[..|rows| - 1], apiKey, t) +
         (if rows[|rows| - 1].apiKey == apiKey && rows[|rows| - 1].createdAt > t then 1 else 0)
  }

  // The quota test; a quota of 0 is none.
  predicate UnderQuota(rows: seq<Row>, apiKey: int, now: int, quota: nat) {
    quota > 0 ==> SendsAfter(rows, apiKey, now - HOUR) < quota
  }

  predicate Writing(phase: Phase) {
    phase.Claimed? || phase.Inserted? || phase.Linked?
  }

  // Rows this process has inserted and not committed.
  predicate HoldsKey(phase: Phase, key: Key) {
    Writing(phase) && phase.req.key != "" && KeyOf(phase.req) == key
  }

  // The load's FOR UPDATE: the record is locked until the transaction that read it ends. One
  // that does not go on to a replay ends at once.
  predicate LocksKey(phase: Phase, key: Key) {
    phase.Replaying? && KeyOf(phase.req) == key
  }

  predicate HoldsId(phase: Phase, id: Id) {
    (phase.Inserted? || phase.Linked?) && phase.req.id == id
  }

  predicate CanCommit(phase: Phase) {
    phase.Replaying? || phase.Linked? || (phase.Inserted? && phase.req.key == "")
  }

  ghost predicate Enabled(s: State, step: Step, quota: int -> nat) {
    match step
    case Pass(_) => true
    case Admit(p, req) =>
      p < |s.procs| && s.procs[p].Idle? && UnderQuota(s.tables.messages, req.apiKey, s.now, quota(req.apiKey))
    case Begin(p) => p < |s.procs| && s.procs[p].Admitted?
    case Claim(p) =>
      && p < |s.procs| && s.procs[p].Begun? && s.procs[p].req.key != ""
      && forall q :: 0 <= q < |s.procs| ==> !HoldsKey(s.procs[q], KeyOf(s.procs[p].req))
    case Load(p) =>
      && p < |s.procs| && s.procs[p].Conflicted? && KeyOf(s.procs[p].req) in s.tables.records
      && forall q :: 0 <= q < |s.procs| ==> !LocksKey(s.procs[q], KeyOf(s.procs[p].req))
    case Insert(p) =>
      && p < |s.procs| && (s.procs[p].Claimed? || (s.procs[p].Begun? && s.procs[p].req.key == ""))
      && forall q :: 0 <= q < |s.procs| ==> !HoldsId(s.procs[q], s.procs[p].req.id)
    case Link(p) => p < |s.procs| && s.procs[p].Inserted? && s.procs[p].req.key != ""
    case Commit(p, _) => p < |s.procs| && CanCommit(s.procs[p])
    case Abort(p) => p < |s.procs|
  }

  function At(s: State, p: nat, phase: Phase): State
    requires p < |s.procs|
  {
    s.(procs := s.procs[p := phase])
  }

  function Next(s: State, step: Step, ghost quota: int -> nat): State
    requires Enabled(s, step, quota)
  {
    match step
    case Pass(d) => s.(now := s.now + d)
    case Admit(p, req) => At(s, p, Admitted(req))
    case Begin(p) => At(s, p, Begun(s.procs[p].req, s.now))
    case Claim(p) =>
      var phase := s.procs[p];
      At(s, p, if KeyOf(phase.req) in s.tables.records then Conflicted(phase.req, phase.at) else Claimed(phase.req, phase.at))
    case Load(p) =>
      var phase := s.procs[p];
      var record := s.tables.records[KeyOf(phase.req)];
      var found := Joined(s.tables, record);
      if record.hash == phase.req.hash && found.Some? then At(s, p, Replaying(phase.req, phase.at, found.value))
      else
        var response := if record.hash != phase.req.hash then Mismatch else InFlight;
        At(s, p, Idle).(log := s.log + [Entry(phase.req, phase.at, response, true)])
    case Insert(p) =>
      var phase := s.procs[p];
      At(s, p, if HasMessage(s.tables, phase.req.id) then Idle else Inserted(phase.req, phase.at))
    case Link(p) => At(s, p, Linked(s.procs[p].req, s.procs[p].at))
    case Commit(p, write) =>
      var phase := s.procs[p];
      if phase.Replaying? then
        At(s, p, Idle).(log := if write.Written? then s.log + [Entry(phase.req, phase.at, Replayed(phase.id), true)] else s.log)
      else if write.Refused? then At(s, p, Idle)
      else
        At(s, p, Idle).(tables := Stored(s.tables, phase.req, phase.at),
                        log := s.log + [Entry(phase.req, phase.at, New(phase.req.id), write.Written?)])
    case Abort(p) => At(s, p, Idle)
  }

  ghost predicate Init(s: State) {
    s.tables == EMPTY && s.log == [] && forall p :: 0 <= p < |s.procs| ==> s.procs[p].Idle?
  }

  // What a process has found out or inserted still holds.
  ghost predicate PhaseOk(t: Tables, phase: Phase) {
    && (forall key :: HoldsKey(phase, key) ==> key !in t.records)
    && (forall id :: HoldsId(phase, id) ==> !HasMessage(t, id))
    && (phase.Linked? || phase.Claimed? || phase.Conflicted? || phase.Replaying? ==> phase.req.key != "")
    && (phase.Conflicted? || phase.Replaying? ==> KeyOf(phase.req) in t.records)
    && (phase.Replaying? ==>
          var r := t.records[KeyOf(phase.req)]; r.hash == phase.req.hash && Joined(t, r) == Some(phase.id))
  }

  ghost predicate Apart(x: Phase, y: Phase) {
    && (forall key :: !(HoldsKey(x, key) && HoldsKey(y, key)))
    && (forall id :: !(HoldsId(x, id) && HoldsId(y, id)))
  }

  ghost predicate Inv(s: State) {
    && Legal(s.log) && s.tables == Replay(s.log)
    && (forall p :: 0 <= p < |s.procs| ==> PhaseOk(s.tables, s.procs[p]))
    && (forall p, q :: 0 <= p < |s.procs| && 0 <= q < |s.procs| && p != q ==> Apart(s.procs[p], s.procs[q]))
  }

  // Another process's commit leaves this one's knowledge true.
  lemma StoredKeeps(t: Tables, phase: Phase, mine: Phase)
    requires PhaseOk(t, phase) && PhaseOk(t, mine) && Apart(phase, mine)
    requires mine.Linked? || (mine.Inserted? && mine.req.key == "")
    ensures PhaseOk(Stored(t, mine.req, mine.at), phase)
  {
    var u := Stored(t, mine.req, mine.at);
    assert HoldsId(mine, mine.req.id);
    assert mine.req.key != "" ==> HoldsKey(mine, KeyOf(mine.req));
    forall id | HoldsId(phase, id)
      ensures !HasMessage(u, id)
    {
      forall i | 0 <= i < |u.messages|
        ensures u.messages[i].id != id
      {
        if i < |t.messages| {
          assert u.messages[i] == t.messages[i];
        }
      }
    }
    if phase.Replaying? {
      var i :| 0 <= i < |t.messages| && t.messages[i].id == phase.id;
      assert u.messages[i].id == phase.id;
    }
  }

  // A commit is the serial run of its request at that moment.
  lemma CommitIsSerial(t: Tables, phase: Phase)
    requires PhaseOk(t, phase) && CanCommit(phase)
    ensures Serial(t, phase.req, phase.at) ==
            if phase.Replaying? then (t, Replayed(phase.id)) else (Stored(t, phase.req, phase.at), New(phase.req.id))
  {
    assert !phase.Replaying? ==> HoldsId(phase, phase.req.id);
    assert phase.Linked? ==> HoldsKey(phase, KeyOf(phase.req));
  }

  lemma QuietKeeps(s: State, p: nat, phase: Phase)
    requires Inv(s) && p < |s.procs| && PhaseOk(s.tables, phase)
    requires forall q :: 0 <= q < |s.procs| && q != p ==> Apart(phase, s.procs[q])
    ensures Inv(At(s, p, phase))
  {
    hide Legal, Replay, PhaseOk, HoldsKey, HoldsId;
  }

  lemma QuietStep(s: State, step: Step, quota: int -> nat)
    requires Inv(s) && Enabled(s, step, quota) && !step.Pass? && !step.Commit? && !step.Load?
    ensures Inv(Next(s, step, quota))
  {
    hide Legal, Replay;
    var p := step.p;
    var phase := Next(s, step, quota).procs[p];
    assert PhaseOk(s.tables, s.procs[p]);
    if step.Link? {
      assert forall key :: HoldsKey(phase, key) ==> HoldsKey(s.procs[p], key);
      assert forall id :: HoldsId(phase, id) ==> HoldsId(s.procs[p], id);
    }
    QuietKeeps(s, p, phase);
  }

  lemma LogStep(s: State, p: nat, e: Entry, t: Tables)
    requires Inv(s) && p < |s.procs| && Serial(s.tables, e.request, e.at) == (t, e.response)
    requires forall q :: 0 <= q < |s.procs| && q != p ==> PhaseOk(t, s.procs[q])
    ensures Inv(State(s.now, t, s.procs[p := Idle], s.log + [e]))
  {
    ReplayStep(s.log, e);
    hide Legal, Replay, Serial;
    var u := State(s.now, t, s.procs[p := Idle], s.log + [e]);
    assert PhaseOk(t, Idle);
  }

  lemma StepInv(s: State, step: Step, quota: int -> nat)
    requires Inv(s) && Enabled(s, step, quota)
    ensures Inv(Next(s, step, quota))
  {
    hide Legal, Replay;
    match step {
      case Pass(_) =>
      case Load(p) =>
        var phase := s.procs[p];
        assert PhaseOk(s.tables, phase);
        var t := Next(s, step, quota);
        if t.log == s.log {
          QuietKeeps(s, p, t.procs[p]);
        } else {
          LogStep(s, p, t.log[|s.log|], s.tables);
        }
      case Commit(p, write) =>
        var phase := s.procs[p];
        assert PhaseOk(s.tables, phase);
        var t := Next(s, step, quota);
        CommitIsSerial(s.tables, phase);
        if t.log == s.log {
          QuietKeeps(s, p, Idle);
        } else {
          if !phase.Replaying? {
            forall q | 0 <= q < |s.procs| && q != p
              ensures PhaseOk(t.tables, s.procs[q])
            {
              StoredKeeps(s.tables, s.procs[q], phase);
            }
          }
          LogStep(s, p, t.log[|s.log|], t.tables);
        }
      case _ => QuietStep(s, step, quota);
    }
  }

  // ---- Whole runs ----

  ghost predicate Valid(s: State, steps: seq<Step>, quota: int -> nat)
    decreases |steps|, 0
  {
    steps == [] ||
    (Valid(s, steps[..|steps| - 1], quota) && Enabled(Exec(s, steps[..|steps| - 1], quota), steps[|steps| - 1], quota))
  }

  ghost function Exec(s: State, steps: seq<Step>, quota: int -> nat): State
    requires Valid(s, steps, quota)
    decreases |steps|, 1
  {
    if steps == [] then s
    else Next(Exec(s, steps[..|steps| - 1], quota), steps[|steps| - 1], quota)
  }

  // The trace is a run from s to t.
  ghost predicate Runs(s: State, trace: seq<Step>, t: State, quota: int -> nat) {
    Valid(s, trace, quota) && Exec(s, trace, quota) == t
  }

  lemma RunsNone(s: State, quota: int -> nat)
    ensures Runs(s, [], s, quota)
  {
  }

  lemma RunsMore(s: State, trace: seq<Step>, t: State, step: Step, quota: int -> nat)
    requires Runs(s, trace, t, quota) && Enabled(t, step, quota)
    ensures Runs(s, trace + [step], Next(t, step, quota), quota)
  {
    assert (trace + [step])[..|trace|] == trace;
  }

  // Whatever the interleaving, with requests dropped or rolled back anywhere: the committed
  // tables are those of a serial run of the requests in the order they took effect, and
  // each response given is the one that serial run gives.
  lemma {:induction false} RunIsSerial(s: State, steps: seq<Step>, quota: int -> nat)
    requires Init(s) && Valid(s, steps, quota)
    ensures var t := Exec(s, steps, quota); Legal(t.log) && t.tables == Replay(t.log) && Inv(t)
    decreases |steps|
  {
    if steps == [] {
      assert Inv(s);
    } else {
      RunIsSerial(s, steps[..|steps| - 1], quota);
      StepInv(Exec(s, steps[..|steps| - 1], quota), steps[|steps| - 1], quota);
    }
  }

  // p's next statement waits for a row q has inserted and not committed, or has locked.
  ghost predicate WaitsFor(s: State, p: nat, q: nat) {
    && p < |s.procs| && q < |s.procs|
    && var phase := s.procs[p];
       || (phase.Begun? && phase.req.key != "" && HoldsKey(s.procs[q], KeyOf(phase.req)))
       || (phase.Conflicted? && LocksKey(s.procs[q], KeyOf(phase.req)))
       || ((phase.Claimed? || (phase.Begun? && phase.req.key == "")) && HoldsId(s.procs[q], phase.req.id))
  }

  // The next statement of p, not waiting.
  ghost predicate CanGoOn(s: State, p: nat, quota: int -> nat) {
    exists step :: Enabled(s, step, quota) && !step.Pass? && !step.Admit? && !step.Abort? && step.p == p
  }

  // A process between two statements goes on unless it waits, and what it waits for goes on,
  // or waits in turn for one that does: no chain of waits is longer, so there is no deadlock.
  lemma NoDeadlock(s: State, p: nat, quota: int -> nat)
    requires Inv(s) && p < |s.procs| && !s.procs[p].Idle?
    ensures || CanGoOn(s, p, quota)
            || (exists q: nat :: WaitsFor(s, p, q) && CanGoOn(s, q, quota))
            || (exists q: nat, r: nat :: WaitsFor(s, p, q) && WaitsFor(s, q, r) && CanGoOn(s, r, quota))
    ensures CanGoOn(s, p, quota) <==> forall q: nat :: !WaitsFor(s, p, q)
  {
    hide Legal, Replay, HasMessage, CanGoOn;
    GoesOnOrWaits(s, p, quota);
    if q: nat :| WaitsFor(s, p, q) {
      GoesOnOrWaits(s, q, quota);
      if r: nat :| WaitsFor(s, q, r) {
        GoesOnOrWaits(s, r, quota);
        assert s.procs[r].Inserted? || s.procs[r].Linked? || s.procs[r].Replaying?;
      }
    }
  }

  lemma GoesOnOrWaits(s: State, p: nat, quota: int -> nat)
    requires Inv(s) && p < |s.procs| && !s.procs[p].Idle?
    ensures CanGoOn(s, p, quota) <==> forall q: nat :: !WaitsFor(s, p, q)
  {
    hide Legal, Replay, HasMessage;
    assert PhaseOk(s.tables, s.procs[p]);
    var phase := s.procs[p];
    var step := if phase.Admitted? then Begin(p)
                else if phase.Conflicted? then Load(p)
                else if phase.Begun? && phase.req.key != "" then Claim(p)
                else if phase.Begun? || phase.Claimed? then Insert(p)
                else if phase.Inserted? && phase.req.key != "" then Link(p)
                else Commit(p, Written);
    if forall q: nat :: !WaitsFor(s, p, q) {
      forall q: nat | q < |s.procs|
        ensures step.Claim? ==> !HoldsKey(s.procs[q], KeyOf(phase.req))
        ensures step.Insert? ==> !HoldsId(s.procs[q], phase.req.id)
        ensures step.Load? ==> !LocksKey(s.procs[q], KeyOf(phase.req))
      {
        assert !WaitsFor(s, p, q);
      }
      assert Enabled(s, step, quota);
    }
    if q: nat :| WaitsFor(s, p, q) {
      forall other | Enabled(s, other, quota) && !other.Pass? && !other.Admit? && !other.Abort?
        ensures other.p != p
      {
      }
    }
  }

  // ---- The quota ----

  function Stamps(rows: seq<Row>, apiKey: int): seq<int> {
    if rows == [] then []
    else Stamps(rows[..|rows| - 1], apiKey) +
         if rows[|rows| - 1].apiKey == apiKey then [rows[|rows| - 1].createdAt] else []
  }

  lemma {:induction false} StampsCount(rows: seq<Row>, apiKey: int, t: int)
    ensures RW.After(Stamps(rows, apiKey), t) == SendsAfter(rows, apiKey, t)
  {
    if rows != [] {
      StampsCount(rows[..|rows| - 1], apiKey, t);
      var before := Stamps(rows[..|rows| - 1], apiKey);
      if rows[|rows| - 1].apiKey == apiKey {
        assert Stamps(rows, apiKey)[..|before|] == before;
      } else {
        assert Stamps(rows, apiKey) == before;
      }
    }
  }

  // What a request may still add: one message once admitted, dated when it began.
  function ProcOf(phase: Phase, apiKey: int): RW.Proc {
    if phase.Admitted? && phase.req.apiKey == apiKey then RW.Proc(1, [])
    else if (phase.Begun? || Writing(phase)) && phase.req.apiKey == apiKey then RW.Proc(0, [phase.at])
    else RW.Proc(0, [])
  }

  function GateOf(s: State, apiKey: int): RW.Gate {
    RW.Gate(s.now, Stamps(s.tables.messages, apiKey),
            seq(|s.procs|, p requires 0 <= p < |s.procs| => ProcOf(s.procs[p], apiKey)))
  }

  // The gate step a step is for one API key, if any.
  function GateStep(s: State, t: State, step: Step, apiKey: int): Option<RW.Step>
    requires !step.Pass? ==> step.p < |s.procs| && step.p < |t.procs|
  {
    if step.Pass? then Some(RW.Pass(step.d))
    else
      var before, after := ProcOf(s.procs[step.p], apiKey), ProcOf(t.procs[step.p], apiKey);
      if before == after then None
      else if after.budget == 1 then Some(RW.Admit(step.p))
      else if before.budget == 1 then Some(if after.drafts != [] then RW.Draft(step.p) else RW.Spend(step.p, 0))
      else Some(if s.tables != t.tables then RW.Commit(step.p) else RW.Discard(step.p))
  }

  lemma StoredStamps(t: Tables, r: Request, at: int, apiKey: int)
    ensures Stamps(Stored(t, r, at).messages, apiKey) ==
            if r.apiKey == apiKey then Stamps(t.messages, apiKey) + [at] else Stamps(t.messages, apiKey)
  {
    assert Stored(t, r, at).messages[..|t.messages|] == t.messages;
  }

  lemma GateSimulates(s: State, step: Step, quota: int -> nat, apiKey: int)
    requires Enabled(s, step, quota) && quota(apiKey) > 0
    ensures |Next(s, step, quota).procs| == |s.procs|
    ensures step.Pass? || step.p < |s.procs|
    ensures var t := Next(s, step, quota);
            var g := GateStep(s, t, step, apiKey);
            if g.None? then GateOf(t, apiKey) == GateOf(s, apiKey)
            else RW.Enabled(GateOf(s, apiKey), g.value, quota(apiKey), 1) &&
                 GateOf(t, apiKey) == RW.Next(GateOf(s, apiKey), g.value, quota(apiKey), 1)
  {
    hide HasMessage, Joined, Stamps, SendsAfter, RW.After, Stored;
    var t := Next(s, step, quota);
    StampsCount(s.tables.messages, apiKey, s.now - HOUR);
    if step.Pass? {
      assert GateOf(t, apiKey).procs == GateOf(s, apiKey).procs;
    } else {
      var p := step.p;
      var proc := ProcOf(t.procs[p], apiKey);
      ProcsStep(s, t, p, apiKey);
      assert ProcOf(s.procs[p], apiKey).drafts != [] ==> ProcOf(s.procs[p], apiKey).drafts[..0] == [];
      assert [] + [s.now] == [s.now];
      if step.Commit? && !s.procs[p].Replaying? {
        StoredStamps(s.tables, s.procs[p].req, s.procs[p].at, apiKey);
        StoredDiffers(s.tables, s.procs[p].req, s.procs[p].at);
      }
    }
  }

  lemma StoredDiffers(t: Tables, r: Request, at: int)
    ensures Stored(t, r, at) != t
  {
    assert |Stored(t, r, at).messages| == |t.messages| + 1;
  }

  lemma ProcsStep(s: State, t: State, p: nat, apiKey: int)
    requires p < |s.procs| && |t.procs| == |s.procs| && t.procs == s.procs[p := t.procs[p]]
    ensures GateOf(t, apiKey).procs == GateOf(s, apiKey).procs[p := ProcOf(t.procs[p], apiKey)]
    ensures GateOf(s, apiKey).procs[p := ProcOf(s.procs[p], apiKey)] == GateOf(s, apiKey).procs
  {
  }

  lemma {:induction false} GateInv(s: State, steps: seq<Step>, quota: int -> nat, apiKey: int)
    requires Init(s) && Valid(s, steps, quota) && quota(apiKey) > 0
    ensures RW.Inv(GateOf(Exec(s, steps, quota), apiKey), quota(apiKey), 1)
    ensures |Exec(s, steps, quota).procs| == |s.procs|
    decreases |steps|
  {
    hide RW.Inv, RW.Enabled, RW.Next, Enabled, Next;
    if steps == [] {
      assert Stamps([], apiKey) == [];
      RW.InitInv(GateOf(s, apiKey), quota(apiKey), 1);
    } else {
      var before := Exec(s, steps[..|steps| - 1], quota);
      var last := steps[|steps| - 1];
      GateInv(s, steps[..|steps| - 1], quota, apiKey);
      GateSimulates(before, last, quota, apiKey);
      var g := GateStep(before, Next(before, last, quota), last, apiKey);
      if g.Some? {
        RW.StepInv(GateOf(before, apiKey), g.value, quota(apiKey), 1);
      }
    }
  }

  // With n requests in progress at most, a key of quota q > 0 has at most q - 1 + n messages
  // created in any one hour: the quota itself when requests come one at a time.
  lemma QuotaHolds(s: State, steps: seq<Step>, quota: int -> nat, apiKey: int, a: int)
    requires Init(s) && Valid(s, steps, quota) && quota(apiKey) > 0
    ensures RW.Inside(Stamps(Exec(s, steps, quota).tables.messages, apiKey), a) <= quota(apiKey) - 1 + |s.procs|
  {
    GateInv(s, steps, quota, apiKey);
    RW.OneWindow(GateOf(Exec(s, steps, quota), apiKey), quota(apiKey), 1, a);
  }
}
