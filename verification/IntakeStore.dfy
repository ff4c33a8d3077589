// EnqueueMessage and handleSend's use of it, as they run on the database: one transaction
// working statement by statement on its own view of the tables.
module IntakeStore {
  import opened Prelude
  import opened Intake
  import opened Backoff

  // ---- What a request comes to ----

  // The statements a request makes when none fails: the beginning; with a key the claim, and
  // the load if the key is taken; the insert; with a key the link; the commit.
  function Statements(t: Tables, r: Request): nat {
    if r.key != "" && KeyOf(r) in t.records then if Serial(t, r, 0).1.Replayed? then 4 else 3
    else (if r.key == "" then 2 else 3) + (if HasMessage(t, r.id) then 0 else if r.key == "" then 1 else 2)
  }

  ghost predicate AllWritten(fate: nat -> Write, from: nat, n: nat) {
    forall i :: from <= i < from + n ==> fate(i).Written?
  }

  // The answer is the serial one if no statement fails, and a failure otherwise.
  ghost function Reply(fate: nat -> Write, from: nat, t: Tables, r: Request, at: int): Response {
    if AllWritten(fate, from, Statements(t, r)) then Serial(t, r, at).1 else Failed
  }

  // The tables are what the serial request leaves if only the last statement, the commit, may
  // have reported an error, and as they were otherwise.
  ghost function Left(fate: nat -> Write, from: nat, t: Tables, r: Request, at: int): Tables {
    var n := Statements(t, r);
    if n > 0 && AllWritten(fate, from, n - 1) && !fate(from + n - 1).Refused? then Serial(t, r, at).0 else t
  }

  lemma AllWrittenOne(fate: nat -> Write, from: nat, n: nat)
    requires AllWritten(fate, from, n)
    ensures AllWritten(fate, from, n + 1) <==> fate(from + n).Written?
  {
  }

  // The first statement that fails decides, unless it is the commit.
  lemma Stopped(fate: nat -> Write, from: nat, n: nat, t: Tables, r: Request, at: int)
    requires !fate(from + n).Written? && n + 1 < Statements(t, r)
    ensures Reply(fate, from, t, r, at) == Failed && Left(fate, from, t, r, at) == t
  {
  }

  // ---- One transaction ----

  // Its statements are numbered on from the store's. One that fails leaves nothing: the
  // transaction is rolled back.
  class Tx {
    const now: int
    const fate: nat -> Write
    var calls: nat
    var tables: Tables

    constructor (tables: Tables, now: int, fate: nat -> Write, calls: nat)
      ensures this.tables == tables && this.now == now && this.fate == fate && this.calls == calls
    {
      this.tables, this.now, this.fate, this.calls := tables, now, fate, calls;
    }

    // Ok(None) has reserved the key; Ok(Some(id)) has found the same request accepted.
    method ClaimIdempotency(r: Request) returns (out: Result<Option<Id>, Response>)
      modifies this
      ensures !fate(old(calls)).Written? ==> out == Err(Failed) && calls == old(calls) + 1 && tables == old(tables)
      ensures fate(old(calls)).Written? && KeyOf(r) !in old(tables.records) ==>
                && out == Ok(None) && calls == old(calls) + 1
                && tables == old(tables).(records := old(tables.records)[KeyOf(r) := Record(r.hash, None)])
      ensures fate(old(calls)).Written? && KeyOf(r) in old(tables.records) ==>
                && tables == old(tables) && calls == old(calls) + 2
                && var record := old(tables.records)[KeyOf(r)];
                   out == if !fate(old(calls) + 1).Written? then Err(Failed)
                          else if record.hash != r.hash then Err(Mismatch)
                          else if Joined(tables, record).None? then Err(InFlight)
                          else Ok(Joined(tables, record))
    {
      var end := fate(calls);
      calls := calls + 1;
      if !end.Written? {
        return Err(Failed);
      }
      if KeyOf(r) !in tables.records {
        tables := tables.(records := tables.records[KeyOf(r) := Record(r.hash, None)]);
        return Ok(None);
      }
      end := fate(calls);
      calls := calls + 1;
      if !end.Written? {
        return Err(Failed);
      }
      var record := tables.records[KeyOf(r)];
      if record.hash != r.hash {
        return Err(Mismatch);
      }
      var id := Joined(tables, record);
      if id.None? {
        return Err(InFlight);
      }
      return Ok(id);
    }

    // The primary key refuses an id that is taken.
    method InsertMessage(r: Request) returns (ok: bool)
      modifies this
      ensures calls == old(calls) + 1
      ensures ok <==> fate(old(calls)).Written? && !HasMessage(old(tables), r.id)
      ensures tables == if ok then old(tables).(messages := old(tables.messages) + [Row(r.id, r.apiKey, now)]) else old(tables)
    {
      var end := fate(calls);
      calls := calls + 1;
      if !end.Written? || HasMessage(tables, r.id) {
        return false;
      }
      tables := tables.(messages := tables.messages + [Row(r.id, r.apiKey, now)]);
      return true;
    }

    method LinkRecord(r: Request) returns (ok: bool)
      requires KeyOf(r) in tables.records
      modifies this
      ensures calls == old(calls) + 1 && (ok <==> fate(old(calls)).Written?)
      ensures tables ==
              if ok then old(tables).(records := old(tables.records)[KeyOf(r) := old(tables.records)[KeyOf(r)].(messageId := Some(r.id))])
              else old(tables)
    {
      var end := fate(calls);
      calls := calls + 1;
      if !end.Written? {
        return false;
      }
      tables := tables.(records := tables.records[KeyOf(r) := tables.records[KeyOf(r)].(messageId := Some(r.id))]);
      return true;
    }
  }

  // How a send request ends before or in the enqueue.
  datatype Outcome = CountFailed | OverQuota | Answered(response: Response)

  class Store {
    const fate: nat -> Write
    var calls: nat
    var now: int
    var tables: Tables
    ghost var log: seq<Entry>

    constructor (fate: nat -> Write, now: int)
      ensures this.fate == fate && calls == 0 && this.now == now && tables == EMPTY && log == []
    {
      this.fate, this.now := fate, now;
      calls, tables, log := 0, EMPTY, [];
    }

    // The machine's state, with this request alone.
    ghost function Snapshot(phase: Phase): State
      reads this
    {
      State(now, tables, [phase], log)
    }

    // Every end but a commit rolls the transaction back.
    method Commit(tx: Tx) returns (write: Write)
      modifies this`calls, this`tables
      ensures write == fate(tx.calls) && calls == tx.calls + 1
      ensures tables == if write.Refused? then old(tables) else tx.tables
    {
      write := fate(tx.calls);
      calls := tx.calls + 1;
      if !write.Refused? {
        tables := tx.tables;
      }
    }

    // The same request accepted before: its message is named again.
    method Repeat(tx: Tx, r: Request, id: Id, ghost start: State, ghost begun: seq<Step>, ghost from: nat, ghost quota: int -> nat)
      returns (out: Response, ghost trace: seq<Step>)
      requires tx.fate == fate && tx.tables == tables && tx.calls == from + 3 && AllWritten(fate, from, 3)
      requires r.key != "" && KeyOf(r) in tables.records
      requires tables.records[KeyOf(r)].hash == r.hash && Joined(tables, tables.records[KeyOf(r)]) == Some(id)
      requires Runs(start, begun, Snapshot(Begun(r, now)), quota)
      modifies this`calls, this`tables, this`log
      ensures out == Reply(fate, from, old(tables), r, now)
      ensures tables == Left(fate, from, old(tables), r, now)
      ensures calls == from + Statements(old(tables), r)
      ensures Runs(start, trace, Snapshot(Idle), quota)
    {
      hide Runs, Enabled, Next, HasMessage, Joined, Serial, Stored, Reply, Left, AllWritten, Statements;
      SerialCases(tables, r, now);
      Finishes(fate, from, 3, tables, r, now);
      trace := Finds(start, begun, Snapshot(Begun(r, now)), r, id, quota);
      var write := Commit(tx);
      trace := Replays(start, trace, State(now, tables, [Replaying(r, now, id)], log), r, id, write, quota);
      log := if write.Written? then log + [Entry(r, now, Replayed(id), true)] else log;
      return if write.Written? then Replayed(id) else Failed, trace;
    }

    // The rest of the transaction: the message, the link and the commit.
    method Complete(tx: Tx, r: Request, ghost start: State, ghost begun: seq<Step>, ghost from: nat, ghost quota: int -> nat)
      returns (out: Response, ghost trace: seq<Step>)
      requires tx.fate == fate && tx.now == now && tx.calls == from + (if r.key == "" then 1 else 2)
      requires AllWritten(fate, from, tx.calls - from) && (r.key == "" || KeyOf(r) !in tables.records)
      requires tx.tables == if r.key == "" then tables else tables.(records := tables.records[KeyOf(r) := Record(r.hash, None)])
      requires Runs(start, begun, Snapshot(if r.key == "" then Begun(r, now) else Claimed(r, now)), quota)
      modifies this`calls, this`tables, this`log, tx
      ensures out == Reply(fate, from, old(tables), r, now)
      ensures tables == Left(fate, from, old(tables), r, now)
      ensures old(tx.calls) < calls <= from + Statements(old(tables), r)
      ensures Runs(start, trace, Snapshot(Idle), quota)
    {
      hide Runs, Enabled, Next, HasMessage, Joined, Serial, Stored, Reply, Left, AllWritten, Statements;
      SerialCases(tables, r, now);
      ghost var phase := if r.key == "" then Begun(r, now) else Claimed(r, now);
      SameMessages(tables, tx.tables, r.id);
      ghost var made := if r.key == "" then 1 else 2;
      var inserted := tx.InsertMessage(r);
      calls := tx.calls;
      AllWrittenOne(fate, from, made);
      if !inserted {
        InsertFails(fate, from, made, tables, r, now);
        trace := GiveUp(start, begun, Snapshot(phase), quota);
        return Failed, trace;
      }
      trace := Inserts(start, begun, Snapshot(phase), r, quota);
      phase := Inserted(r, now);
      if r.key != "" {
        var linked := tx.LinkRecord(r);
        calls := tx.calls;
        AllWrittenOne(fate, from, 3);
        if !linked {
          Stopped(fate, from, 3, tables, r, now);
          trace := GiveUp(start, trace, Snapshot(phase), quota);
          return Failed, trace;
        }
        trace := Links(start, trace, Snapshot(phase), r, quota);
        phase := Linked(r, now);
      }
      StoredIs(tables, r, now, tx.tables);
      ghost var n := if r.key == "" then 2 else 4;
      Finishes(fate, from, n, tables, r, now);
      assert Serial(tables, r, now) == (tx.tables, New(r.id)) && tx.calls == from + n;
      ghost var ready := Snapshot(phase);
      var write := Commit(tx);
      trace := Commits(start, trace, ready, r, write, quota);
      log := if write.Refused? then log else log + [Entry(r, now, New(r.id), write.Written?)];
      return if write.Written? then New(r.id) else Failed, trace;
    }

    // Run with nothing in between, it is the serial request: all of it or nothing. It fails
    // exactly if one of its statements does or the id is taken, and only a failed commit can
    // hide that it took effect. Its statements are a run of the machine, so what holds between
    // any requests holds of this one.
    method EnqueueMessage(r: Request, ghost quota: int -> nat) returns (out: Response, ghost trace: seq<Step>)
      modifies this`calls, this`tables, this`log
      ensures out == Reply(fate, old(calls), old(tables), r, now)
      ensures tables == Left(fate, old(calls), old(tables), r, now)
      ensures old(calls) < calls <= old(calls) + Statements(old(tables), r)
      ensures Runs(old(Snapshot(Admitted(r))), trace, Snapshot(Idle), quota)
    {
      hide Runs, Enabled, Next, HasMessage, Joined, Serial, Stored, Reply, Left, AllWritten, Statements;
      ghost var start, from := Snapshot(Admitted(r)), calls;
      ghost var phase := Admitted(r);
      trace := [];
      RunsNone(start, quota);
      BeginFails(fate, from, tables, r, now);
      var end := fate(calls);
      calls := calls + 1;
      if !end.Written? {
        trace := GiveUp(start, trace, Snapshot(phase), quota);
        return Failed, trace;
      }
      var tx := new Tx(tables, now, fate, calls);
      trace := Begins(start, trace, Snapshot(phase), r, quota);
      phase := Begun(r, now);
      if r.key != "" {
        var claim := tx.ClaimIdempotency(r);
        calls := tx.calls;
        if claim == Err(Failed) {
          ClaimFails(fate, from, tables, r, now);
          trace := GiveUp(start, trace, Snapshot(phase), quota);
          return Failed, trace;
        }
        if claim.Err? {
          ClaimRefused(fate, from, tables, r, now, claim.error);
          trace := TurnsDown(start, trace, Snapshot(phase), r, claim.error, quota);
          log := log + [Entry(r, now, claim.error, true)];
          return claim.error, trace;
        }
        if claim.value.Some? {
          FirstWritten(fate, from);
          out, trace := Repeat(tx, r, claim.value.value, start, trace, from, quota);
          return;
        }
        trace := Claims(start, trace, Snapshot(phase), r, quota);
        phase := Claimed(r, now);
      }
      FirstWritten(fate, from);
      out, trace := Complete(tx, r, start, trace, from, quota);
    }

    method SendsInLastHour(apiKey: int) returns (n: Result<nat, ()>)
      modifies this`calls
      ensures calls == old(calls) + 1
      ensures n == if fate(old(calls)).Written? then Ok(SendsAfter(tables.messages, apiKey, now - HOUR)) else Err(())
    {
      var end := fate(calls);
      calls := calls + 1;
      if !end.Written? {
        return Err(());
      }
      var rows, count := tables.messages, 0;
      for i := 0 to |rows|
        invariant count == SendsAfter(rows[..i], apiKey, now - HOUR)
      {
        assert rows[..i + 1][..i] == rows[..i];
        if rows[i].apiKey == apiKey && rows[i].createdAt > now - HOUR {
          count := count + 1;
        }
      }
      assert rows[..|rows|] == rows;
      n := Ok(count);
    }

    // An error exactly if the count fails, refused exactly if the quota is used up, nothing
    // being stored then; otherwise the enqueue's answer.
    method HandleSend(r: Request, quota: nat, ghost quotas: int -> nat) returns (out: Outcome, ghost trace: seq<Step>)
      requires quotas(r.apiKey) == quota
      modifies this`calls, this`tables, this`log
      ensures var first := if quota > 0 then old(calls) + 1 else old(calls);
              && out == (if quota > 0 && !fate(old(calls)).Written? then CountFailed
                         else if quota > 0 && SendsAfter(old(tables.messages), r.apiKey, now - HOUR) >= quota then OverQuota
                         else Answered(Reply(fate, first, old(tables), r, now)))
              && tables == (if out.Answered? then Left(fate, first, old(tables), r, now) else old(tables))
      ensures !out.Answered? ==> trace == []
      ensures Runs(old(Snapshot(Idle)), trace, Snapshot(Idle), quotas)
    {
      ghost var start := Snapshot(Idle);
      trace := [];
      RunsNone(start, quotas);
      if quota > 0 {
        var used := SendsInLastHour(r.apiKey);
        if used.Err? {
          return CountFailed, trace;
        }
        if used.value >= quota {
          return OverQuota, trace;
        }
      }
      ghost var admitted := Snapshot(Admitted(r));
      trace := GoOn(start, trace, start, Admit(0, r), admitted, quotas);
      hide Runs, Serial, UnderQuota, Reply, Left;
      var response;
      ghost var more;
      response, more := EnqueueMessage(r, quotas);
      RunsOn(start, trace, admitted, more, Snapshot(Idle), quotas);
      out, trace := Answered(response), trace + more;
    }
  }

  // ---- The serial request, case by case ----

  lemma FirstWritten(fate: nat -> Write, from: nat)
    ensures AllWritten(fate, from, 1) <==> fate(from).Written?
    ensures AllWritten(fate, from, 2) <==> fate(from).Written? && fate(from + 1).Written?
    ensures AllWritten(fate, from, 3) <==> fate(from).Written? && fate(from + 1).Written? && fate(from + 2).Written?
  {
  }

  // What each kind of request comes to, and in how many statements.
  lemma SerialCases(t: Tables, r: Request, at: int)
    ensures var (u, response) := Serial(t, r, at);
            var n := Statements(t, r);
            && n >= 2
            && (r.key != "" && KeyOf(r) in t.records ==>
                  && u == t
                  && var record := t.records[KeyOf(r)];
                     if record.hash != r.hash then response == Mismatch && n == 3
                     else if Joined(t, record).None? then response == InFlight && n == 3
                     else response == Replayed(Joined(t, record).value) && n == 4)
            && ((r.key == "" || KeyOf(r) !in t.records) && HasMessage(t, r.id) ==>
                  u == t && response == Failed && n == if r.key == "" then 2 else 3)
            && ((r.key == "" || KeyOf(r) !in t.records) && !HasMessage(t, r.id) ==>
                  u == Stored(t, r, at) && response == New(r.id) && n == if r.key == "" then 3 else 5)
  {
    hide HasMessage, Stored;
  }

  lemma BeginFails(fate: nat -> Write, from: nat, t: Tables, r: Request, at: int)
    ensures Statements(t, r) >= if r.key == "" then 2 else 3
    ensures !fate(from).Written? ==> Reply(fate, from, t, r, at) == Failed && Left(fate, from, t, r, at) == t
  {
    SerialCases(t, r, at);
    hide Serial, HasMessage, Joined, Stored, Statements;
  }

  lemma ClaimRefused(fate: nat -> Write, from: nat, t: Tables, r: Request, at: int, error: Response)
    requires r.key != "" && KeyOf(r) in t.records
    requires fate(from).Written? && fate(from + 1).Written? && fate(from + 2).Written?
    requires var record := t.records[KeyOf(r)];
             if record.hash != r.hash then error == Mismatch else error == InFlight && Joined(t, record).None?
    ensures Reply(fate, from, t, r, at) == error && Left(fate, from, t, r, at) == t
  {
    SerialCases(t, r, at);
    hide Serial, HasMessage, Joined, Stored, Statements;
  }

  // A claim fails at its insert or at its load.
  lemma ClaimFails(fate: nat -> Write, from: nat, t: Tables, r: Request, at: int)
    requires r.key != "" && (!fate(from + 1).Written? || (KeyOf(r) in t.records && !fate(from + 2).Written?))
    ensures Reply(fate, from, t, r, at) == Failed && Left(fate, from, t, r, at) == t
  {
    SerialCases(t, r, at);
    hide Serial, HasMessage, Joined, Stored, Statements;
  }

  lemma InsertFails(fate: nat -> Write, from: nat, made: nat, t: Tables, r: Request, at: int)
    requires made == if r.key == "" then 1 else 2
    requires r.key == "" || KeyOf(r) !in t.records
    requires !fate(from + made).Written? || HasMessage(t, r.id)
    ensures Reply(fate, from, t, r, at) == Failed && Left(fate, from, t, r, at) == t
  {
    SerialCases(t, r, at);
    hide Serial, HasMessage, Joined, Stored, Statements;
  }

  // All but the last statement went well.
  lemma Finishes(fate: nat -> Write, from: nat, n: nat, t: Tables, r: Request, at: int)
    requires n + 1 == Statements(t, r) && AllWritten(fate, from, n)
    ensures var end := fate(from + n);
            && Reply(fate, from, t, r, at) == (if end.Written? then Serial(t, r, at).1 else Failed)
            && Left(fate, from, t, r, at) == (if end.Refused? then t else Serial(t, r, at).0)
  {
    hide Serial, Statements;
    AllWrittenOne(fate, from, n);
  }

  lemma SameMessages(t: Tables, u: Tables, id: Id)
    requires t.messages == u.messages
    ensures HasMessage(t, id) <==> HasMessage(u, id)
  {
  }

  lemma StoredIs(t: Tables, r: Request, at: int, u: Tables)
    requires u.messages == t.messages + [Row(r.id, r.apiKey, at)]
    requires u.records == if r.key == "" then t.records else t.records[KeyOf(r) := Record(r.hash, Some(r.id))]
    ensures u == Stored(t, r, at)
  {
  }

  // ---- The steps of one request alone ----

  lemma GoOn(s: State, trace: seq<Step>, t: State, step: Step, u: State, quota: int -> nat) returns (more: seq<Step>)
    requires Runs(s, trace, t, quota) && Enabled(t, step, quota) && Next(t, step, quota) == u
    ensures more == trace + [step] && Runs(s, more, u, quota)
  {
    RunsMore(s, trace, t, step, quota);
    more := trace + [step];
  }

  ghost predicate Alone(t: State, phase: Phase) {
    t.procs == [phase]
  }

  lemma Begins(s: State, trace: seq<Step>, t: State, r: Request, quota: int -> nat) returns (more: seq<Step>)
    requires Runs(s, trace, t, quota) && Alone(t, Admitted(r))
    ensures Runs(s, more, t.(procs := [Begun(r, t.now)]), quota)
  {
    hide Runs;
    more := GoOn(s, trace, t, Begin(0), t.(procs := [Begun(r, t.now)]), quota);
  }

  lemma Claims(s: State, trace: seq<Step>, t: State, r: Request, quota: int -> nat) returns (more: seq<Step>)
    requires Runs(s, trace, t, quota) && Alone(t, Begun(r, t.now)) && r.key != ""
    ensures Runs(s, more, t.(procs := [if KeyOf(r) in t.tables.records then Conflicted(r, t.now) else Claimed(r, t.now)]), quota)
  {
    hide Runs;
    var phase := if KeyOf(r) in t.tables.records then Conflicted(r, t.now) else Claimed(r, t.now);
    more := GoOn(s, trace, t, Step.Claim(0), t.(procs := [phase]), quota);
  }

  lemma TurnsDown(s: State, trace: seq<Step>, t: State, r: Request, error: Response, quota: int -> nat) returns (more: seq<Step>)
    requires Runs(s, trace, t, quota) && Alone(t, Begun(r, t.now)) && r.key != "" && KeyOf(r) in t.tables.records
    requires var record := t.tables.records[KeyOf(r)];
             if record.hash != r.hash then error == Mismatch else error == InFlight && Joined(t.tables, record).None?
    ensures Runs(s, more, State(t.now, t.tables, [Idle], t.log + [Entry(r, t.now, error, true)]), quota)
  {
    hide Runs, Joined;
    var claimed := Claims(s, trace, t, r, quota);
    more := GoOn(s, claimed, t.(procs := [Conflicted(r, t.now)]), Load(0),
                 State(t.now, t.tables, [Idle], t.log + [Entry(r, t.now, error, true)]), quota);
  }

  lemma Finds(s: State, trace: seq<Step>, t: State, r: Request, id: Id, quota: int -> nat) returns (more: seq<Step>)
    requires Runs(s, trace, t, quota) && Alone(t, Begun(r, t.now)) && r.key != "" && KeyOf(r) in t.tables.records
    requires t.tables.records[KeyOf(r)].hash == r.hash && Joined(t.tables, t.tables.records[KeyOf(r)]) == Some(id)
    ensures Runs(s, more, t.(procs := [Replaying(r, t.now, id)]), quota)
  {
    hide Runs, Joined;
    var claimed := Claims(s, trace, t, r, quota);
    more := GoOn(s, claimed, t.(procs := [Conflicted(r, t.now)]), Load(0), t.(procs := [Replaying(r, t.now, id)]), quota);
  }

  lemma Replays(s: State, trace: seq<Step>, t: State, r: Request, id: Id, write: Write, quota: int -> nat)
    returns (more: seq<Step>)
    requires Runs(s, trace, t, quota) && Alone(t, Replaying(r, t.now, id))
    ensures Runs(s, more, State(t.now, t.tables, [Idle],
                                if write.Written? then t.log + [Entry(r, t.now, Replayed(id), true)] else t.log), quota)
  {
    hide Runs;
    var log := if write.Written? then t.log + [Entry(r, t.now, Replayed(id), true)] else t.log;
    more := GoOn(s, trace, t, Step.Commit(0, write), State(t.now, t.tables, [Idle], log), quota);
  }

  lemma Inserts(s: State, trace: seq<Step>, t: State, r: Request, quota: int -> nat) returns (more: seq<Step>)
    requires Runs(s, trace, t, quota) && Alone(t, if r.key == "" then Begun(r, t.now) else Claimed(r, t.now))
    requires !HasMessage(t.tables, r.id)
    ensures Runs(s, more, t.(procs := [Inserted(r, t.now)]), quota)
  {
    hide Runs, HasMessage;
    more := GoOn(s, trace, t, Insert(0), t.(procs := [Inserted(r, t.now)]), quota);
  }

  lemma Links(s: State, trace: seq<Step>, t: State, r: Request, quota: int -> nat) returns (more: seq<Step>)
    requires Runs(s, trace, t, quota) && Alone(t, Inserted(r, t.now)) && r.key != ""
    ensures Runs(s, more, t.(procs := [Linked(r, t.now)]), quota)
  {
    hide Runs;
    more := GoOn(s, trace, t, Link(0), t.(procs := [Linked(r, t.now)]), quota);
  }

  lemma Commits(s: State, trace: seq<Step>, t: State, r: Request, write: Write, quota: int -> nat) returns (more: seq<Step>)
    requires Runs(s, trace, t, quota) && Alone(t, if r.key == "" then Inserted(r, t.now) else Linked(r, t.now))
    ensures Runs(s, more, if write.Refused? then t.(procs := [Idle])
                          else State(t.now, Stored(t.tables, r, t.now), [Idle],
                                     t.log + [Entry(r, t.now, New(r.id), write.Written?)]), quota)
  {
    hide Runs, Stored;
    var u := if write.Refused? then t.(procs := [Idle])
             else State(t.now, Stored(t.tables, r, t.now), [Idle], t.log + [Entry(r, t.now, New(r.id), write.Written?)]);
    more := GoOn(s, trace, t, Step.Commit(0, write), u, quota);
  }

  lemma GiveUp(s: State, trace: seq<Step>, t: State, quota: int -> nat) returns (more: seq<Step>)
    requires Runs(s, trace, t, quota) && |t.procs| == 1
    ensures Runs(s, more, State(t.now, t.tables, [Idle], t.log), quota)
  {
    RunsMore(s, trace, t, Abort(0), quota);
    assert Next(t, Abort(0), quota) == State(t.now, t.tables, [Idle], t.log);
    more := trace + [Abort(0)];
  }

  lemma {:induction false} RunsOn(s: State, trace: seq<Step>, t: State, more: seq<Step>, u: State, quota: int -> nat)
    requires Runs(s, trace, t, quota) && Runs(t, more, u, quota)
    ensures Runs(s, trace + more, u, quota)
    decreases |more|
  {
    hide Next, Enabled;
    if more == [] {
      assert trace + more == trace;
    } else {
      var before, last := more[..|more| - 1], more[|more| - 1];
      RunsOn(s, trace, t, before, Exec(t, before, quota), quota);
      RunsMore(s, trace + before, Exec(t, before, quota), last, quota);
      assert trace + before + [last] == trace + more;
    }
  }
}
