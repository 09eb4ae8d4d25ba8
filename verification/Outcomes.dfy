/** What a store answers to a command it decides, and that it keeps to it: an accepted or a refused operation keeps its
    outcome, and every event belongs to an accepted operation. */
module Outcomes {
  import opened Base
  import opened Records
  import opened Commands
  import opened StoreModel
  import opened SqliteStore
  import opened CrashRefinement
  import opened Refinement
  import opened Outbox
  import Mem = MemoryStore
  import Lin = Linearisation

  /** A decided answer as an exact retry gets it. */
  function Replay(answer: Answer): Answer {
    if answer.Accepted? then Accepted(answer.applied.(replayed := true)) else answer
  }

  /** What a store says to another command under a decided operation id. */
  function Again(c: Input, answer: Answer, d: Input): Answer {
    if d.command.request == c.command.request && d.command.sealed then Replay(answer) else Refused(IdempotencyConflict)
  }

  // The in-memory store ----------------------------------------------------------------------------------------

  predicate Undecided(m: Mem.MemState, k: (Str, Str)) { k !in m.accepted && k !in m.rejected }

  /** The outcome an answer stands for is in the dictionaries. */
  predicate Recorded(m: Mem.MemState, c: Input, answer: Answer) {
    match answer
    case Accepted(applied) => Key(c) in m.accepted && m.accepted[Key(c)] == (c.command.request, applied)
    case Refused(code) =>
      Key(c) !in m.accepted && Key(c) in m.rejected && m.rejected[Key(c)] == (c.command.request, code)
    case _ => true
  }

  /** The answer to a new command: the failure of admission, of the revision check, of the reducer or of the encoding,
      in this order, or what the reducer made of the loop. */
  function Decision(core: Core, s: Option<Snapshot>, c: Input): Answer {
    var r := c.command.request;
    if core.admit(s, c.command).Stop? then Failed(core.admit(s, c.command).failure)
    else if (if s.Some? then s.value.loopRevision else 0) != r.expectedRevision then Refused(StaleLoopRevision)
    else
      match core.reduce(s, c)
      case Err(failure) => Failed(failure)
      case Ok(t) =>
        if core.encode(t.snapshot).Stop? then Failed(core.encode(t.snapshot).failure)
        else Accepted(Applied(r.operationId, r.loop, t.snapshot.loopRevision, t.events, t.response, t.snapshot, false))
  }

  function Failed(failure: Failure): Answer { match failure case Rejected(code) => Refused(code) case Fault => Died }

  /** A new command is answered by its decision. If that accepts, its loop alone changes, to the reducer's snapshot, with
      the events appended; if it refuses, no loop changes. */
  lemma MemDecides(core: Core, m: Mem.MemState, c: Input)
    requires c.command.unencodable.None? && Undecided(m, Key(c))
    ensures var (u, answer) := Mem.MemApply(core, m, c, None); var loop := c.command.request.loop;
            && answer == Decision(core, Find(m.snapshots, loop), c)
            && u.blobs == m.blobs
            && (answer.Accepted? ==>
                  && u.snapshots == m.snapshots[loop := answer.applied.digest]
                  && |Mem.EventsOf(u, loop)| == |Mem.EventsOf(m, loop)| + |answer.applied.events|
                  && Mem.EventsOf(m, loop) <= Mem.EventsOf(u, loop)
                  && (forall i :: 0 <= i < |answer.applied.events| ==>
                        Mem.EventsOf(u, loop)[|Mem.EventsOf(m, loop)| + i]
                        == Numbered(|Mem.EventsOf(m, loop)| + i + 1, answer.applied.events[i]))
                  && u.commits == m.commits + 1)
            && (!answer.Accepted? ==> u.snapshots == m.snapshots && u.events == m.events && u.commits == m.commits)
  {
  }

  /** So is it by the SQLite store, unless synchronisation fails. */
  lemma SqlDecides(core: Core, db: Tables, c: Input)
    requires Ordered(db) && NoConflict(core) && c.command.unencodable.None? && Key(c) !in db.operations
    requires SqlApply(core, SqlState(db, None), c, None).1 !in {Corrupt, Escaped}
    ensures SqlApply(core, SqlState(db, None), c, None).1 == Decision(core, SnapshotOf(db, c.command.request.loop), c)
  {
    ApplyRefines(core, db, c);
    KnownOperations(db, c);
    hide SqlApply, Abs, Decision, Ordered;
    MemDecides(core, Abs(db), c);
  }

  lemma MemRecords(core: Core, m: Mem.MemState, c: Input, fault: Option<Mem.Boundary>)
    requires c.command.unencodable.None? && Undecided(m, Key(c))
    ensures Recorded(Mem.MemApply(core, m, c, fault).0, c, Mem.MemApply(core, m, c, fault).1)
  {
    hide Admit, ResultOf, Mem.EventsOf, Sequenced;
  }

  lemma RecordStays(m: Mem.MemState, u: Mem.MemState, c: Input, answer: Answer)
    requires Recorded(m, c, answer) && Lin.Settled(m, u) && u.accepted.Keys !! u.rejected.Keys
    ensures Recorded(u, c, answer)
  {
  }

  lemma MemReplays(core: Core, m: Mem.MemState, c: Input, answer: Answer, d: Input, fault: Option<Mem.Boundary>)
    requires Recorded(m, c, answer) && (answer.Accepted? || answer.Refused?)
    requires Key(d) == Key(c) && d.command.unencodable.None?
    ensures Mem.MemApply(core, m, d, fault) == (m, Again(c, answer, d))
  {
    hide Mem.MemFirst;
  }

  /** Once a new operation has been accepted or refused, every exact retry gets that outcome again, and any other request
      under its id a conflict, after whatever calls and under whatever registry; neither changes anything. */
  lemma MemOutcomeStays(
    core: Core, calls: seq<Lin.Call>, c: Input, fault: Option<Mem.Boundary>, more: seq<Lin.Call>, d: Input,
    later: Option<Mem.Boundary>)
    requires c.command.unencodable.None? && Undecided(Lin.MemAfter(core, calls), Key(c))
    requires var answer := Mem.MemApply(core, Lin.MemAfter(core, calls), c, fault).1; answer.Accepted? || answer.Refused?
    requires Key(d) == Key(c) && d.command.unencodable.None?
    ensures var answer := Mem.MemApply(core, Lin.MemAfter(core, calls), c, fault).1;
            var m := Lin.MemAfter(core, calls + [Lin.Apply(c, fault)] + more);
            Mem.MemApply(core, m, d, later) == (m, Again(c, answer, d))
  {
    var first := calls + [Lin.Apply(c, fault)];
    var all := first + more;
    var answer := Mem.MemApply(core, Lin.MemAfter(core, calls), c, fault).1;
    assert first[..|calls|] == calls && all[..|first|] == first;
    MemRecords(core, Lin.MemAfter(core, calls), c, fault);
    assert Recorded(Lin.MemAfter(core, first), c, answer) by { hide Mem.MemApply, Recorded; }
    hide Mem.MemApply, Lin.MemAfter, Recorded, Lin.Settled, Again;
    Lin.OperationsStaySettled(core, all, |first|);
    RecordStays(Lin.MemAfter(core, first), Lin.MemAfter(core, all), c, answer);
    MemReplays(core, Lin.MemAfter(core, all), c, answer, d, later);
  }

  // The SQLite store -------------------------------------------------------------------------------------------

  predicate Stored(t: Tables, c: Input, answer: Answer) {
    match answer
    case Accepted(applied) =>
      Key(c) in t.operations && t.operations[Key(c)] == Operation(c.command.request, Took(applied))
    case Refused(code) =>
      Key(c) in t.operations && t.operations[Key(c)] == Operation(c.command.request, Rejection(code))
    case _ => true
  }

  predicate OperationsStay(t: Tables, u: Tables) {
    forall k :: k in t.operations ==> k in u.operations && u.operations[k] == t.operations[k]
  }

  lemma OperationRow(t: Tables, c: Input, outcome: Recorded)
    ensures WithOperation(t, c, outcome) == t.(operations := t.operations[Key(c) := Operation(c.command.request, outcome)])
  {
  }

  lemma WrittenOperations(core: Core, db: Tables, c: Input, t: Reduced, fault: Option<Boundary>)
    ensures WriteAll(core, db, c, t, fault).Commit? ==>
              WriteAll(core, db, c, t, fault).tables.operations
              == db.operations[Key(c) := Operation(c.command.request, Took(ResultOf(c, t)))]
  {
    hide WithEvents, WithOperation, Synced, Sequenced, ResultOf, EventKeys;
    var operated := WithOperation(db, c, Took(ResultOf(c, t)));
    OperationRow(db, c, Took(ResultOf(c, t)));
    EventsFrame(operated, c, Sequenced(|EventKeys(db, c.command.request.loop)|, t.events));
    SyncedFrame(core, Saved(db, c, t), c, t.snapshot);
  }

  lemma WriteStores(core: Core, db: Tables, c: Input, t: Reduced, fault: Option<Boundary>)
    requires Key(c) !in db.operations
    ensures var (st, answer) := Closed(SqlState(db, None), WriteAll(core, db, c, t, fault));
            Stored(st.db, c, answer) && OperationsStay(db, st.db)
  {
    hide WithEvents, WithOperation, WithSnapshot, Synced, Sequenced, ResultOf, EventKeys;
    WrittenOperations(core, db, c, t, fault);
    WriteAnswers(core, db, c, t, fault);
  }

  lemma WriteAnswers(core: Core, db: Tables, c: Input, t: Reduced, fault: Option<Boundary>)
    ensures var e := WriteAll(core, db, c, t, fault);
            && e.answer in {Crashed, Corrupt, Escaped, Accepted(ResultOf(c, t))} && (e.answer.Accepted? ==> e.Commit?)
  {
    hide WithEvents, WithOperation, WithSnapshot, Synced, Sequenced, ResultOf, EventKeys;
  }

  lemma FailureStores(db: Tables, c: Input, failure: Failure)
    requires Key(c) !in db.operations && failure != Rejected(IdempotencyConflict)
    ensures var (st, answer) := Closed(SqlState(db, None), AfterFailure(db, c, failure));
            Stored(st.db, c, answer) && OperationsStay(db, st.db)
  {
  }

  lemma FirstStores(core: Core, db: Tables, c: Input, fault: Option<Boundary>)
    requires Key(c) !in db.operations && NoConflict(core)
    ensures var (st, answer) := Closed(SqlState(db, None), Transact(core, db, c, fault));
            Stored(st.db, c, answer) && OperationsStay(db, st.db)
  {
    hide WriteAll, Admit, AfterFailure, Stored, OperationsStay;
    QuietStores(db, c);
    var current := SnapshotOf(db, c.command.request.loop);
    if Admit(core, current, c).Stop? {
      AdmitHasNoConflict(core, current, c);
      FailureStores(db, c, Admit(core, current, c).failure);
    } else if core.reduce(current, c).Err? {
      FailureStores(db, c, core.reduce(current, c).failure);
    } else {
      var t := core.reduce(current, c).value;
      if core.encode(t.snapshot).Stop? {
        FailureStores(db, c, core.encode(t.snapshot).failure);
      } else {
        WriteStores(core, db, c, t, fault);
      }
    }
  }

  lemma AdmitHasNoConflict(core: Core, s: Option<Snapshot>, c: Input)
    requires NoConflict(core)
    ensures Admit(core, s, c) != Check.Stop(Rejected(IdempotencyConflict))
  {
    assert core.reduce(s, c) != Err(Rejected(IdempotencyConflict));
  }

  lemma QuietStores(db: Tables, c: Input)
    ensures Stored(db, c, Crashed) && OperationsStay(db, db)
  {
  }

  lemma SqlRecords(core: Core, st: SqlState, c: Input, fault: Option<Boundary>)
    requires c.command.unencodable.None? && Key(c) !in st.db.operations && NoConflict(core)
    ensures Stored(SqlApply(core, st, c, fault).0.db, c, SqlApply(core, st, c, fault).1)
  {
    hide Transact, Stored, NoConflict;
    assert Stored(st.db, c, Crashed) && Stored(st.db, c, Unavailable) by { StoredTrivially(st.db, c); }
    if fault != Some(BeforeBegin) && st.txn.None? {
      assert st == SqlState(st.db, None);
      FirstStores(core, st.db, c, fault);
    }
  }

  lemma StoredTrivially(t: Tables, c: Input)
    ensures Stored(t, c, Crashed) && Stored(t, c, Unavailable)
  {
  }

  lemma ApplyKeepsOperations(core: Core, st: SqlState, c: Input, fault: Option<Boundary>)
    requires NoConflict(core)
    ensures OperationsStay(st.db, SqlApply(core, st, c, fault).0.db)
  {
    if Key(c) in st.db.operations {
      hide Transact;
      KnownKeepsOperations(core, st.db, c, fault);
    } else {
      QuietStores(st.db, c);
      if c.command.unencodable.None? && fault != Some(BeforeBegin) && st.txn.None? {
        assert st == SqlState(st.db, None);
        FirstStores(core, st.db, c, fault);
      }
      hide Transact, OperationsStay, Stored, NoConflict;
    }
  }

  lemma KnownKeepsOperations(core: Core, db: Tables, c: Input, fault: Option<Boundary>)
    requires Key(c) in db.operations
    ensures Closed(SqlState(db, None), Transact(core, db, c, fault)).0 == SqlState(db, None)
  {
    hide WriteAll, Admit, AfterFailure;
  }

  lemma CallKeepsOperations(core: Core, st: SqlState, call: SqlCall)
    requires NoConflict(core)
    ensures OperationsStay(st.db, SqlCalled(core, st, call).db)
  {
    hide SqlApply, NoConflict;
    if call.Apply? { ApplyKeepsOperations(core, st, call.input, call.fault); }
  }

  lemma OperationsStayOn(t: Tables, u: Tables, v: Tables)
    requires OperationsStay(t, u) && OperationsStay(u, v)
    ensures OperationsStay(t, v)
  {
  }

  lemma {:induction false} RunKeepsOperations(core: Core, calls: seq<SqlCall>, k: nat)
    requires NoConflict(core) && k <= |calls|
    ensures OperationsStay(SqlAfter(core, calls[..k]).db, SqlAfter(core, calls).db)
  {
    if k == |calls| {
      assert calls[..k] == calls;
    } else {
      var front, last := calls[..|calls| - 1], calls[|calls| - 1];
      assert front[..k] == calls[..k];
      RunKeepsOperations(core, front, k);
      CallKeepsOperations(core, SqlAfter(core, front), last);
      OperationsStayOn(SqlAfter(core, calls[..k]).db, SqlAfter(core, front).db, SqlAfter(core, calls).db);
    }
    hide OperationsStay, SqlCalled, NoConflict;
  }

  lemma SqlReplays(core: Core, st: SqlState, c: Input, answer: Answer, d: Input, fault: Option<Boundary>)
    requires st.txn.None? && Stored(st.db, c, answer) && (answer.Accepted? || answer.Refused?)
    requires Key(d) == Key(c) && d.command.unencodable.None? && fault !in {Some(BeforeBegin), Some(AfterBegin)}
    ensures SqlApply(core, st, d, fault) == (st, Again(c, answer, d))
  {
    hide WriteAll, Admit, AfterFailure;
  }

  /** The same of the SQLite store: once a new operation has been accepted or refused, exact retries on a connection
      without open transaction get that outcome again, and other requests under its id a conflict. */
  lemma SqlOutcomeStays(
    core: Core, calls: seq<SqlCall>, c: Input, fault: Option<Boundary>, more: seq<SqlCall>, d: Input,
    later: Option<Boundary>)
    requires NoConflict(core) && c.command.unencodable.None? && Key(c) !in SqlAfter(core, calls).db.operations
    requires var answer := SqlApply(core, SqlAfter(core, calls), c, fault).1; answer.Accepted? || answer.Refused?
    requires Key(d) == Key(c) && d.command.unencodable.None? && later !in {Some(BeforeBegin), Some(AfterBegin)}
    requires SqlAfter(core, calls + [Apply(c, fault)] + more).txn.None?
    ensures var answer := SqlApply(core, SqlAfter(core, calls), c, fault).1;
            var st := SqlAfter(core, calls + [Apply(c, fault)] + more);
            SqlApply(core, st, d, later) == (st, Again(c, answer, d))
  {
    var first := calls + [Apply(c, fault)];
    var all := first + more;
    var answer := SqlApply(core, SqlAfter(core, calls), c, fault).1;
    assert first[..|calls|] == calls && all[..|first|] == first;
    SqlRecords(core, SqlAfter(core, calls), c, fault);
    assert Stored(SqlAfter(core, first).db, c, answer) by { hide SqlApply, Stored, NoConflict; }
    hide SqlApply, SqlAfter, Stored, Again, NoConflict, OperationsStay;
    RunKeepsOperations(core, all, |first|);
    StoredStays(SqlAfter(core, first).db, SqlAfter(core, all).db, c, answer);
    SqlReplays(core, SqlAfter(core, all), c, answer, d, later);
  }

  lemma StoredStays(t: Tables, u: Tables, c: Input, answer: Answer)
    requires Stored(t, c, answer) && OperationsStay(t, u)
    ensures Stored(u, c, answer)
  {
  }

  // Events belong to operations --------------------------------------------------------------------------------

  /** The row names an accepted operation of its loop that produced the event. */
  predicate Attributed(t: Tables, k: (Str, nat))
    requires k in t.events
  {
    var op := (k.0, t.events[k].operationId);
    op in t.operations && t.operations[op].outcome.Took? && t.events[k].event in t.operations[op].outcome.applied.events
  }

  predicate AllAttributed(t: Tables) { forall k :: k in t.events ==> Attributed(t, k) }

  lemma {:induction false} EventsAdded(t: Tables, c: Input, events: seq<Numbered>, k: (Str, nat))
    requires k in WithEvents(t, c, events).tables.events
    ensures var row := WithEvents(t, c, events).tables.events[k];
            || (k in t.events && row == t.events[k])
            || (k.0 == c.command.request.loop && row.operationId == c.command.request.operationId
                && exists i :: 0 <= i < |events| && events[i].event == row.event)
    decreases |events|
  {
    if events != [] && (c.command.request.loop, events[0].sequence) !in t.events {
      var row := EventRow(c.command.request.operationId, events[0].event);
      var u := t.(events := t.events[(c.command.request.loop, events[0].sequence) := row]);
      EventsAdded(u, c, events[1..], k);
      var last := WithEvents(u, c, events[1..]).tables.events[k];
      if i :| 0 <= i < |events[1..]| && events[1..][i].event == last.event { assert events[i + 1].event == last.event; }
    }
  }

  lemma SavedRows(db: Tables, c: Input, t: Reduced, k: (Str, nat))
    requires k in Saved(db, c, t).events
    ensures var row := Saved(db, c, t).events[k];
            || (k in db.events && row == db.events[k])
            || (k.0 == c.command.request.loop && row.operationId == c.command.request.operationId && row.event in t.events)
    ensures Saved(db, c, t).operations
            == db.operations[Key(c) := Operation(c.command.request, Took(ResultOf(c, t)))]
  {
    hide WithEvents, WithOperation, ResultOf, EventKeys;
    var operated := WithOperation(db, c, Took(ResultOf(c, t)));
    OperationRow(db, c, Took(ResultOf(c, t)));
    var events := Sequenced(|EventKeys(db, c.command.request.loop)|, t.events);
    EventsFrame(operated, c, events);
    EventsAdded(operated, c, events, k);
  }

  lemma CommitAttributes(core: Core, db: Tables, c: Input, t: Reduced, u: Tables)
    requires AllAttributed(db) && OperationsStay(db, u) && SameRecord(Saved(db, c, t), u)
    ensures AllAttributed(u)
  {
    forall k | k in u.events ensures Attributed(u, k) {
      SavedRows(db, c, t, k);
      assert k in db.events ==> Attributed(db, k);
    }
    hide Saved;
  }

  lemma CallAttributes(core: Core, st: SqlState, call: SqlCall)
    requires AllAttributed(st.db) && NoConflict(core)
    ensures AllAttributed(SqlCalled(core, st, call).db)
  {
    CallKeepsOperations(core, st, call);
    hide Transact, OperationsStay, NoConflict;
    match call
    case Apply(c, fault) =>
      if c.command.unencodable.None? && fault != Some(BeforeBegin) && st.txn.None? {
        assert st == SqlState(st.db, None);
        ApplyAttributes(core, st.db, c, fault);
      }
    case Claim(ref, executor) => SameEvents(st.db, SqlClaim(st, ref, executor).0.db);
    case PutBlob(content) => SameEvents(st.db, SqlPutBlob(st, content).0.db);
    case Reopen =>
  }

  lemma SameEvents(t: Tables, u: Tables)
    requires AllAttributed(t) && u.events == t.events && u.operations == t.operations
    ensures AllAttributed(u)
  {
    forall k | k in u.events ensures Attributed(u, k) { assert Attributed(t, k); }
  }

  lemma ApplyAttributes(core: Core, db: Tables, c: Input, fault: Option<Boundary>)
    requires AllAttributed(db) && NoConflict(core)
    ensures AllAttributed(SqlApply(core, SqlState(db, None), c, fault).0.db)
  {
    ApplyKeepsOperations(core, SqlState(db, None), c, fault);
    DurableOutbox(core, db, c, fault);
    hide SqlApply, AllAttributed, NoConflict, Attempted, Synced, Saved, OperationsStay;
    var u := SqlApply(core, SqlState(db, None), c, fault).0.db;
    if SyncedCommit(core, db, c, u) {
      var t := Attempted(core, SnapshotOf(db, c.command.request.loop), c).value;
      SyncedFrame(core, Saved(db, c, t), c, t.snapshot);
      CommitAttributes(core, db, c, t, u);
    } else {
      OperationsAttribute(db, u);
    }
  }

  lemma OperationsAttribute(t: Tables, u: Tables)
    requires AllAttributed(t) && u.events == t.events && OperationsStay(t, u)
    ensures AllAttributed(u)
  {
    forall k | k in u.events ensures Attributed(u, k) { assert Attributed(t, k); }
  }

  /** After any run, every event row names an accepted operation of its loop that produced the event. */
  lemma {:induction false} EventsAreAttributed(core: Core, calls: seq<SqlCall>)
    requires NoConflict(core)
    ensures AllAttributed(SqlAfter(core, calls).db)
  {
    if calls != [] {
      var front := calls[..|calls| - 1];
      EventsAreAttributed(core, front);
      hide AllAttributed, SqlCalled, NoConflict;
      CallAttributes(core, SqlAfter(core, front), calls[|calls| - 1]);
    }
  }
}
