/** Every run of the SQLite store, read back from its durable tables, is a run of the in-memory store. */
module Refinement {
  import opened Base
  import opened Records
  import opened Commands
  import opened StoreModel
  import opened SqliteStore
  import opened CrashRefinement
  import Mem = MemoryStore
  import Lin = Linearisation

  // Reading the tables back ------------------------------------------------------------------------------------

  /** The events of a loop ordered by sequence number. */
  function LogOf(t: Tables, loop: Str): seq<Event> {
    seq(|EventKeys(t, loop)|, i requires 0 <= i < |EventKeys(t, loop)| =>
          if (loop, i + 1) in t.events then t.events[(loop, i + 1)].event else LoopResumed)
  }

  function Accepts(ops: map<(Str, Str), Operation>): map<(Str, Str), (Request, Applied)> {
    map k | k in ops && ops[k].outcome.Took? :: (ops[k].digest, ops[k].outcome.applied)
  }

  function Rejects(ops: map<(Str, Str), Operation>): map<(Str, Str), (Request, ErrorCode)> {
    map k | k in ops && ops[k].outcome.Rejection? :: (ops[k].digest, ops[k].outcome.code)
  }

  function Snapshots(loops: map<Str, LoopRow>): map<Str, Snapshot> { map l | l in loops :: loops[l].snapshot }

  function Logs(t: Tables): map<Str, seq<Numbered>> { map l | l in t.loops :: Sequenced(0, LogOf(t, l)) }

  /** `commit_count` is the number of accepted operations. */
  function Abs(t: Tables): Mem.MemState {
    Mem.MemState(Snapshots(t.loops), Logs(t), Accepts(t.operations), Rejects(t.operations), t.blobs,
                 |Accepts(t.operations)|)
  }

  /** The events of a loop are exactly the given ones, numbered from 1. */
  ghost predicate LogIs(t: Tables, loop: Str, log: seq<Event>) {
    && (forall n: nat :: (loop, n) in t.events <==> 1 <= n <= |log|)
    && (forall i :: 0 <= i < |log| ==> t.events[(loop, i + 1)].event == log[i])
  }

  ghost predicate SameLog(t: Tables, u: Tables, loop: Str) {
    && (forall n: nat :: (loop, n) in u.events <==> (loop, n) in t.events)
    && (forall n: nat :: (loop, n) in t.events ==> u.events[(loop, n)] == t.events[(loop, n)])
  }

  ghost predicate OtherLogsKept(t: Tables, u: Tables, loop: Str) {
    forall other :: other != loop ==> SameLog(t, u, other)
  }

  ghost predicate Ordered(t: Tables) {
    && (forall loop :: LogIs(t, loop, LogOf(t, loop)))
    && (forall loop :: loop !in t.loops ==> LogOf(t, loop) == [])
    && (forall loop :: loop in t.loops ==> RowIs(t.loops[loop]))
  }

  predicate RowIs(row: LoopRow) { row.revision == row.snapshot.loopRevision && row.digest == row.snapshot }

  function KeysBelow(loop: Str, n: nat): set<(Str, nat)> {
    if n == 0 then {} else KeysBelow(loop, n - 1) + {(loop, n)}
  }

  lemma {:induction false} KeysBelowAre(loop: Str, n: nat)
    ensures |KeysBelow(loop, n)| == n && forall k :: k in KeysBelow(loop, n) <==> k.0 == loop && 1 <= k.1 <= n
  {
    if n > 0 { KeysBelowAre(loop, n - 1); }
  }

  lemma LogIsRead(t: Tables, loop: Str, log: seq<Event>)
    requires LogIs(t, loop, log)
    ensures LogOf(t, loop) == log && |EventKeys(t, loop)| == |log|
  {
    KeysBelowAre(loop, |log|);
    assert EventKeys(t, loop) == KeysBelow(loop, |log|) by {
      forall k ensures k in EventKeys(t, loop) <==> k in KeysBelow(loop, |log|) {
        if k.0 == loop { assert k == (loop, k.1); }
      }
    }
  }

  // Appending events -------------------------------------------------------------------------------------------

  /** Inserting the next events of a loop succeeds and extends its log; other loops keep theirs. */
  lemma {:induction false} EventsAppend(t: Tables, c: Input, log: seq<Event>, more: seq<Event>, start: nat)
    requires LogIs(t, c.command.request.loop, log) && start == |log|
    ensures var w := WithEvents(t, c, Sequenced(start, more));
            && w.trouble == NoTrouble && LogIs(w.tables, c.command.request.loop, log + more)
            && OtherLogsKept(t, w.tables, c.command.request.loop)
    decreases |more|
  {
    var loop := c.command.request.loop;
    if more == [] {
      assert log + more == log;
    } else {
      var u := t.(events := t.events[(loop, start + 1) := EventRow(c.command.request.operationId, more[0])]);
      assert LogIs(u, loop, log + [more[0]]);
      assert Sequenced(start, more)[1..] == Sequenced(start + 1, more[1..]);
      EventsAppend(u, c, log + [more[0]], more[1..], start + 1);
      assert log + [more[0]] + more[1..] == log + more;
      var w := WithEvents(t, c, Sequenced(start, more));
      assert w == WithEvents(u, c, Sequenced(start + 1, more[1..]));
      forall other | other != loop ensures SameLog(t, w.tables, other) { assert SameLog(u, w.tables, other); }
    }
  }

  lemma OtherLogs(t: Tables, u: Tables, loop: Str)
    requires LogIs(t, loop, LogOf(t, loop))
    requires SameLog(t, u, loop)
    ensures LogIs(u, loop, LogOf(t, loop)) && LogOf(u, loop) == LogOf(t, loop)
  {
    assert LogIs(u, loop, LogOf(t, loop));
    LogIsRead(u, loop, LogOf(t, loop));
  }

  // One call ---------------------------------------------------------------------------------------------------

  lemma AcceptsGrow(ops: map<(Str, Str), Operation>, k: (Str, Str), digest: Request, applied: Applied)
    requires k !in ops
    ensures Accepts(ops[k := Operation(digest, Took(applied))]) == Accepts(ops)[k := (digest, applied)]
    ensures Rejects(ops[k := Operation(digest, Took(applied))]) == Rejects(ops)
    ensures |Accepts(ops[k := Operation(digest, Took(applied))])| == |Accepts(ops)| + 1
  {
    var more := ops[k := Operation(digest, Took(applied))];
    assert Accepts(more).Keys == Accepts(ops).Keys + {k};
    assert Accepts(more) == Accepts(ops)[k := (digest, applied)];
    assert Rejects(more) == Rejects(ops);
  }

  lemma RejectsGrow(ops: map<(Str, Str), Operation>, k: (Str, Str), digest: Request, code: ErrorCode)
    requires k !in ops
    ensures Rejects(ops[k := Operation(digest, Rejection(code))]) == Rejects(ops)[k := (digest, code)]
    ensures Accepts(ops[k := Operation(digest, Rejection(code))]) == Accepts(ops)
  {
    var more := ops[k := Operation(digest, Rejection(code))];
    assert Rejects(more) == Rejects(ops)[k := (digest, code)];
    assert Accepts(more) == Accepts(ops);
  }

  /** The reducers never raise the conflict that only the stores raise. */
  ghost predicate NoConflict(core: Core) {
    forall s, c: Input :: core.admit(s, c.command) != Check.Stop(Rejected(IdempotencyConflict))
                   && core.reduce(s, c) != Err(Rejected(IdempotencyConflict))
                   && (core.reduce(s, c).Ok? ==>
                         core.encode(core.reduce(s, c).value.snapshot) != Check.Stop(Rejected(IdempotencyConflict)))
  }

  lemma OperationsKeepOrder(t: Tables, u: Tables)
    requires Ordered(t) && u.events == t.events && u.loops == t.loops
    ensures Ordered(u) && forall loop :: LogOf(u, loop) == LogOf(t, loop)
  {
    forall loop ensures LogOf(u, loop) == LogOf(t, loop) && LogIs(u, loop, LogOf(u, loop)) {
      assert LogIs(t, loop, LogOf(t, loop));
      OtherLogs(t, u, loop);
    }
  }

  lemma OperationsOnly(t: Tables, u: Tables)
    requires Ordered(t) && u == t.(operations := u.operations)
    ensures Ordered(u)
    ensures Abs(u) == Abs(t).(accepted := Accepts(u.operations), rejected := Rejects(u.operations),
                              commits := |Accepts(u.operations)|)
  {
    hide Ordered, LogOf, LogIs, SameLog, Accepts, Rejects, Sequenced, Snapshots;
    OperationsKeepOrder(t, u);
    assert Logs(u) == Logs(t);
    hide Logs;
  }

  lemma RejectionRefines(t: Tables, c: Input, code: ErrorCode)
    requires Ordered(t) && Key(c) !in t.operations
    ensures Ordered(WithOperation(t, c, Rejection(code)))
    ensures Abs(WithOperation(t, c, Rejection(code)))
            == Abs(t).(rejected := Abs(t).rejected[Key(c) := (c.command.request, code)])
  {
    RejectsGrow(t.operations, Key(c), c.command.request, code);
    OperationsOnly(t, WithOperation(t, c, Rejection(code)));
    hide Ordered, LogOf, Accepts, Rejects, Sequenced;
  }

  lemma FailureRefines(t: Tables, c: Input, failure: Failure)
    requires Ordered(t) && Key(c) !in t.operations && failure != Rejected(IdempotencyConflict)
    ensures var (u, answer) := Closed(SqlState(t, None), AfterFailure(t, c, failure));
            && Ordered(u.db) && Abs(u.db) == Mem.MemReject(Abs(t), c, failure).0
            && answer == Mem.MemReject(Abs(t), c, failure).1
  {
    hide Abs, Ordered, WithOperation;
    if failure.Rejected? { RejectionRefines(t, c, failure.code); }
  }

  /** The tables once the operation, the events and the snapshot of an accepted command are written. */
  function Saved(db: Tables, c: Input, t: Reduced): Tables {
    var operated := WithOperation(db, c, Took(ResultOf(c, t)));
    var events := Sequenced(|EventKeys(db, c.command.request.loop)|, t.events);
    WithSnapshot(WithEvents(operated, c, events).tables, c.command.request.loop, t.snapshot)
  }

  lemma SavedTables(db: Tables, c: Input, t: Reduced)
    requires Ordered(db)
    ensures var u := Saved(db, c, t);
            && u == db.(operations := db.operations[Key(c) := Operation(c.command.request, Took(ResultOf(c, t)))],
                        loops := db.loops[c.command.request.loop := LoopRow(t.snapshot.loopRevision, t.snapshot, t.snapshot)],
                        events := u.events)
            && LogIs(u, c.command.request.loop, LogOf(db, c.command.request.loop) + t.events)
            && OtherLogsKept(db, u, c.command.request.loop)
  {
    var operated := WithOperation(db, c, Took(ResultOf(c, t)));
    var loop := c.command.request.loop;
    assert LogIs(db, loop, LogOf(db, loop));
    assert LogIs(operated, loop, LogOf(db, loop));
    hide Ordered, LogOf, WithEvents, ResultOf, Sequenced, LogIs, OtherLogsKept;
    LogSize(db, loop);
    var events := Sequenced(|EventKeys(db, loop)|, t.events);
    EventsAppend(operated, c, LogOf(db, loop), t.events, |EventKeys(db, loop)|);
    EventsFrame(operated, c, events);
    var logged := WithEvents(operated, c, events).tables;
    SavedIsRead(logged, Saved(db, c, t), loop, LogOf(db, loop) + t.events, operated);
    SameLogs(operated, db, Saved(db, c, t), loop);
  }

  lemma SameLogs(s: Tables, t: Tables, u: Tables, loop: Str)
    requires s.events == t.events && OtherLogsKept(s, u, loop)
    ensures OtherLogsKept(t, u, loop)
  {
    forall other | other != loop ensures SameLog(t, u, other) { assert SameLog(s, u, other); }
  }

  lemma LogSize(t: Tables, loop: Str)
    ensures |LogOf(t, loop)| == |EventKeys(t, loop)|
  {
  }

  /** A commit without a fault ends in the saved tables, synchronised. */
  lemma CommittedIsSaved(core: Core, db: Tables, c: Input, t: Reduced, u: Tables)
    requires WriteAll(core, db, c, t, None) == Commit(u, Accepted(ResultOf(c, t)))
    ensures Synced(core, Saved(db, c, t), c, t.snapshot) == Written(u, NoTrouble)
    ensures SameRecord(Saved(db, c, t), u)
  {
    hide WithEvents, Synced, Sequenced, ResultOf, SameRecord, WithSnapshot, WithOperation;
    SyncedFrame(core, Saved(db, c, t), c, t.snapshot);
  }

  lemma CommitKeepsOrder(db: Tables, c: Input, t: Reduced, u: Tables)
    requires Ordered(db) && LogIs(u, c.command.request.loop, LogOf(db, c.command.request.loop) + t.events)
    requires u.loops == db.loops[c.command.request.loop := LoopRow(t.snapshot.loopRevision, t.snapshot, t.snapshot)]
    requires OtherLogsKept(db, u, c.command.request.loop)
    ensures Ordered(u) && LogOf(u, c.command.request.loop) == LogOf(db, c.command.request.loop) + t.events
    ensures forall loop :: loop != c.command.request.loop ==> LogOf(u, loop) == LogOf(db, loop)
  {
    LogIsRead(u, c.command.request.loop, LogOf(db, c.command.request.loop) + t.events);
    forall loop | loop != c.command.request.loop ensures LogOf(u, loop) == LogOf(db, loop) && LogIs(u, loop, LogOf(u, loop)) {
      assert LogIs(db, loop, LogOf(db, loop));
      OtherLogs(db, u, loop);
    }
  }

  lemma EventsOfAbs(t: Tables, loop: Str)
    requires Ordered(t)
    ensures Mem.EventsOf(Abs(t), loop) == Sequenced(0, LogOf(t, loop))
    ensures |Mem.EventsOf(Abs(t), loop)| == |LogOf(t, loop)|
  {
    hide LogOf, LogIs, Accepts, Rejects, Snapshots;
  }

  lemma SnapshotsGrow(loops: map<Str, LoopRow>, loop: Str, row: LoopRow)
    ensures Snapshots(loops[loop := row]) == Snapshots(loops)[loop := row.snapshot]
  {
  }

  lemma LogsGrow(t: Tables, u: Tables, loop: Str, row: LoopRow)
    requires u.loops == t.loops[loop := row]
    requires forall other :: other != loop ==> LogOf(u, other) == LogOf(t, other)
    ensures Logs(u) == Logs(t)[loop := Sequenced(0, LogOf(u, loop))]
  {
    hide LogOf, Sequenced;
  }

  lemma AbsCommits(db: Tables, c: Input, t: Reduced, u: Tables)
    requires Ordered(db) && u.blobs == db.blobs
    requires u.loops == db.loops[c.command.request.loop := LoopRow(t.snapshot.loopRevision, t.snapshot, t.snapshot)]
    requires LogOf(u, c.command.request.loop) == LogOf(db, c.command.request.loop) + t.events
    requires forall loop :: loop != c.command.request.loop ==> LogOf(u, loop) == LogOf(db, loop)
    ensures var m := Mem.MemCommit(Abs(db), c, t);
            Abs(u) == m.(accepted := Accepts(u.operations), rejected := Rejects(u.operations),
                         commits := |Accepts(u.operations)|)
  {
    var loop := c.command.request.loop;
    EventsOfAbs(db, loop);
    hide Mem.EventsOf, Ordered, LogOf, Accepts, Rejects, Sequenced, ResultOf, Snapshots, Logs;
    SequencedAppend(LogOf(db, loop), t.events);
    SnapshotsGrow(db.loops, loop, LoopRow(t.snapshot.loopRevision, t.snapshot, t.snapshot));
    LogsGrow(db, u, loop, LoopRow(t.snapshot.loopRevision, t.snapshot, t.snapshot));
  }

  lemma CommitRefines(core: Core, db: Tables, c: Input, t: Reduced, u: Tables)
    requires Ordered(db) && Key(c) !in db.operations
    requires WriteAll(core, db, c, t, None) == Commit(u, Accepted(ResultOf(c, t)))
    ensures Ordered(u) && Abs(u) == Mem.MemCommit(Abs(db), c, t)
  {
    CommittedIsSaved(core, db, c, t, u);
    SavedTables(db, c, t);
    hide WriteAll, Synced, Saved, Ordered, LogOf, Accepts, Rejects, ResultOf, Sequenced, Snapshots, Logs;
    SavedIsRead(Saved(db, c, t), u, c.command.request.loop, LogOf(db, c.command.request.loop) + t.events, db);
    CommitKeepsOrder(db, c, t, u);
    AbsCommits(db, c, t, u);
    AcceptsGrow(db.operations, Key(c), c.command.request, ResultOf(c, t));
  }

  /** Logs depend on the event table alone. */
  lemma SavedIsRead(t: Tables, u: Tables, loop: Str, log: seq<Event>, db: Tables)
    requires t.events == u.events && LogIs(t, loop, log) && OtherLogsKept(db, t, loop)
    ensures LogIs(u, loop, log) && OtherLogsKept(db, u, loop)
  {
    forall other | other != loop ensures SameLog(db, u, other) { assert SameLog(db, t, other); }
  }

  /** Without a fault and without corruption, a call is a call of the reference store. */
  lemma ApplyRefines(core: Core, db: Tables, c: Input)
    requires Ordered(db) && NoConflict(core) && SqlApply(core, SqlState(db, None), c, None).1 !in {Corrupt, Escaped}
    ensures var (st, answer) := SqlApply(core, SqlState(db, None), c, None);
            && Ordered(st.db) && Abs(st.db) == Mem.MemApply(core, Abs(db), c, None).0
            && answer == Mem.MemApply(core, Abs(db), c, None).1
  {
    hide WriteAll, AfterFailure, Admit, Ordered, LogOf, Logs, Mem.MemReject, Mem.MemCommit;
    KnownOperations(db, c);
    if c.command.unencodable.None? && Key(c) !in db.operations {
      FirstRefines(core, db, c);
    }
  }

  lemma KnownOperations(db: Tables, c: Input)
    ensures Key(c) in db.operations && db.operations[Key(c)].outcome.Took? ==>
              Key(c) in Abs(db).accepted
              && Abs(db).accepted[Key(c)] == (db.operations[Key(c)].digest, db.operations[Key(c)].outcome.applied)
    ensures Key(c) in db.operations && db.operations[Key(c)].outcome.Rejection? ==>
              Key(c) !in Abs(db).accepted && Key(c) in Abs(db).rejected
              && Abs(db).rejected[Key(c)] == (db.operations[Key(c)].digest, db.operations[Key(c)].outcome.code)
    ensures Key(c) !in db.operations ==> Key(c) !in Abs(db).accepted && Key(c) !in Abs(db).rejected
    ensures Find(Abs(db).snapshots, c.command.request.loop) == SnapshotOf(db, c.command.request.loop)
  {
    hide LogOf, Logs;
  }

  lemma FirstRefines(core: Core, db: Tables, c: Input)
    requires Ordered(db) && NoConflict(core) && Key(c) !in db.operations
    requires Transact(core, db, c, None).answer !in {Corrupt, Escaped}
    ensures var (st, answer) := Closed(SqlState(db, None), Transact(core, db, c, None));
            && Ordered(st.db) && Abs(st.db) == Mem.MemFirst(core, Abs(db), c, None).0
            && answer == Mem.MemFirst(core, Abs(db), c, None).1
  {
    KnownOperations(db, c);
    var current := SnapshotOf(db, c.command.request.loop);
    hide WriteAll, AfterFailure, Ordered, Abs, Mem.MemReject, Mem.MemCommit, ResultOf;
    if Admit(core, current, c).Stop? {
      FailureRefines(db, c, Admit(core, current, c).failure);
    } else if core.reduce(current, c).Err? {
      FailureRefines(db, c, core.reduce(current, c).failure);
    } else {
      var t := core.reduce(current, c).value;
      if core.encode(t.snapshot).Stop? {
        FailureRefines(db, c, core.encode(t.snapshot).failure);
      } else {
        WriteEnds(core, db, c, t);
        CommitRefines(core, db, c, t, WriteAll(core, db, c, t, None).tables);
      }
    }
  }

  lemma WriteEnds(core: Core, db: Tables, c: Input, t: Reduced)
    ensures var e := WriteAll(core, db, c, t, None);
            && (e.answer !in {Corrupt, Escaped} ==> e.Commit?) && (e.Commit? ==> e.answer == Accepted(ResultOf(c, t)))
  {
    hide WithOperation, WithEvents, WithSnapshot, Synced, Sequenced, ResultOf;
  }

  // Runs -------------------------------------------------------------------------------------------------------

  datatype SqlCall =
    | Apply(input: Input, fault: Option<Boundary>)
    | Claim(ref: Str, executor: Str)
    | PutBlob(content: string)
    | Reopen

  function SqlCalled(core: Core, st: SqlState, call: SqlCall): SqlState {
    match call
    case Apply(c, fault) => SqlApply(core, st, c, fault).0
    case Claim(ref, executor) => SqlClaim(st, ref, executor).0
    case PutBlob(content) => SqlPutBlob(st, content).0
    case Reopen => SqlState(st.db, None)
  }

  function SqlAfter(core: Core, calls: seq<SqlCall>): SqlState {
    if calls == [] then SqlState(NO_TABLES, None)
    else SqlCalled(core, SqlAfter(core, calls[..|calls| - 1]), calls[|calls| - 1])
  }

  /** The calls of the reference store that a call amounts to: none when nothing became durable. */
  function Durable(core: Core, st: SqlState, call: SqlCall): seq<Lin.Call> {
    match call
    case Apply(c, fault) =>
      var answer := SqlApply(core, st, c, fault).1;
      if answer == Crashed then
        if fault == Some(AfterCommitBeforeResponse) then [Lin.Apply(c, Some(Mem.AfterCommitBeforeResponse))] else []
      else if answer in {Corrupt, Escaped, Died, Unavailable} then [] else [Lin.Apply(c, None)]
    case PutBlob(content) => if st.txn.None? then [Lin.PutBlob(content)] else []
    case _ => []
  }

  function Survivors(core: Core, calls: seq<SqlCall>): seq<Lin.Call> {
    if calls == [] then []
    else
      var front := calls[..|calls| - 1];
      Survivors(core, front) + Durable(core, SqlAfter(core, front), calls[|calls| - 1])
  }

  predicate SoundBlobs(t: Tables) { forall d :: d in t.blobs ==> BlobDigest(t.blobs[d]) == d }

  /** Apart from the outbox, one call on the durable tables is the reference store's. */
  predicate CallRefined(core: Core, st: SqlState, call: SqlCall) {
    Abs(SqlCalled(core, st, call).db)
    == if Durable(core, st, call) == [] then Abs(st.db) else Lin.Called(core, Abs(st.db), Durable(core, st, call)[0])
  }

  lemma ClaimRefines(core: Core, st: SqlState, ref: Str, executor: Str)
    requires Ordered(st.db)
    ensures Ordered(SqlClaim(st, ref, executor).0.db) && Abs(SqlClaim(st, ref, executor).0.db) == Abs(st.db)
    ensures SqlClaim(st, ref, executor).0.db.blobs == st.db.blobs
  {
    var t := SqlClaim(st, ref, executor).0.db;
    hide LogIs, Sequenced, Snapshots, Accepts, Rejects;
    OutboxOnly(st.db, t);
  }

  lemma OutboxOnly(t: Tables, u: Tables)
    requires Ordered(t) && u == t.(outbox := u.outbox, blobs := u.blobs)
    ensures Ordered(u) && Abs(u) == Abs(t).(blobs := u.blobs)
  {
    hide Ordered, LogOf, LogIs, SameLog, Accepts, Rejects, Sequenced, Snapshots;
    OperationsKeepOrder(t, u);
    assert Logs(u) == Logs(t);
    hide Logs;
  }

  lemma BlobRefines(core: Core, st: SqlState, content: string)
    requires Ordered(st.db) && SoundBlobs(st.db)
    ensures var u := SqlPutBlob(st, content).0.db;
            && Ordered(u) && SoundBlobs(u)
            && Abs(u) == if st.txn.None? then Abs(st.db).(blobs := st.db.blobs[BlobDigest(content) := content])
                         else Abs(st.db)
  {
    var u := SqlPutBlob(st, content).0.db;
    hide Ordered, LogOf, Logs, Accepts, Rejects, Snapshots, Abs;
    if st.txn.None? && BlobDigest(content) in st.db.blobs {
      assert st.db.blobs[BlobDigest(content)] == content;
      assert st.db.blobs[BlobDigest(content) := content] == st.db.blobs;
    }
    OutboxOnly(st.db, u);
  }

  lemma BlobsKept(core: Core, db: Tables, c: Input, fault: Option<Boundary>)
    ensures SqlApply(core, SqlState(db, None), c, fault).0.db.blobs == db.blobs
  {
    var current := SnapshotOf(db, c.command.request.loop);
    hide WriteAll, Admit, WithOperation;
    if core.reduce(current, c).Ok? { WriteKeepsBlobs(core, db, c, core.reduce(current, c).value, fault); }
    assert forall outcome :: WithOperation(db, c, outcome).blobs == db.blobs by {
      forall outcome ensures WithOperation(db, c, outcome).blobs == db.blobs { OperationKeepsBlobs(db, c, outcome); }
    }
  }

  lemma OperationKeepsBlobs(db: Tables, c: Input, outcome: Recorded)
    ensures WithOperation(db, c, outcome).blobs == db.blobs
  {
  }

  lemma WriteKeepsBlobs(core: Core, db: Tables, c: Input, t: Reduced, fault: Option<Boundary>)
    ensures WriteAll(core, db, c, t, fault).Commit? ==> WriteAll(core, db, c, t, fault).tables.blobs == db.blobs
  {
    hide WithEvents, Synced, Sequenced, ResultOf, EventKeys;
    var operated := WithOperation(db, c, Took(ResultOf(c, t)));
    var events := Sequenced(|EventKeys(db, c.command.request.loop)|, t.events);
    EventsFrame(operated, c, events);
    SyncedFrame(core, Saved(db, c, t), c, t.snapshot);
  }

  lemma FaultedCallRefines(core: Core, st: SqlState, c: Input, fault: Option<Boundary>)
    requires Ordered(st.db) && NoConflict(core)
    ensures Ordered(SqlApply(core, st, c, fault).0.db)
    ensures CallRefined(core, st, Apply(c, fault))
  {
    if c.command.unencodable.Some? || fault == Some(BeforeBegin) || st.txn.Some? {
      hide Transact, Abs, Ordered;
    } else {
      assert st == SqlState(st.db, None);
      CrashIsAllOrNothing(core, st.db, c, fault);
      if SqlApply(core, st, c, None).1 in {Corrupt, Escaped} {
        CorruptKeeps(core, st.db, c);
      } else {
        ApplyRefines(core, st.db, c);
      }
      hide SqlApply, Abs, Ordered;
      MemFaultIsState(core, Abs(st.db), c);
      DiedKeeps(core, st.db, c);
    }
  }

  lemma CorruptKeeps(core: Core, db: Tables, c: Input)
    requires SqlApply(core, SqlState(db, None), c, None).1 in {Corrupt, Escaped, Died}
    ensures SqlApply(core, SqlState(db, None), c, None).0.db == db
  {
    hide WithOperation, WithEvents, WithSnapshot, Synced, Admit, Sequenced;
  }

  lemma DiedKeeps(core: Core, db: Tables, c: Input)
    ensures SqlApply(core, SqlState(db, None), c, None).1 in {Corrupt, Escaped, Died} ==>
              SqlApply(core, SqlState(db, None), c, None).0.db == db
    ensures SqlApply(core, SqlState(db, None), c, None).1 != Unavailable
  {
    hide WithOperation, WithEvents, WithSnapshot, Synced, Admit, Sequenced;
  }

  /** A response lost behind the commit leaves the reference store as the whole call does. */
  lemma MemFaultIsState(core: Core, m: Mem.MemState, c: Input)
    ensures Mem.MemApply(core, m, c, Some(Mem.AfterCommitBeforeResponse)).0 == Mem.MemApply(core, m, c, None).0
  {
    hide Admit, Mem.MemReject, Mem.MemCommit;
  }

  /** The durable tables of any run, read back, are the state of the reference store after the surviving calls. */
  lemma {:induction false} RunRefines(core: Core, calls: seq<SqlCall>)
    requires NoConflict(core)
    ensures Ordered(SqlAfter(core, calls).db) && SoundBlobs(SqlAfter(core, calls).db)
    ensures Abs(SqlAfter(core, calls).db) == Lin.MemAfter(core, Survivors(core, calls))
  {
    if calls == [] {
      EmptyRefines();
    } else {
      var front, last := calls[..|calls| - 1], calls[|calls| - 1];
      RunRefines(core, front);
      var st := SqlAfter(core, front);
      hide Abs, Ordered, SqlApply, SqlClaim, SqlPutBlob, NoConflict, SoundBlobs;
      CallRefines(core, st, last);
      SurvivorsExtend(core, Survivors(core, front), Durable(core, st, last));
    }
  }

  lemma CallRefines(core: Core, st: SqlState, call: SqlCall)
    requires Ordered(st.db) && SoundBlobs(st.db) && NoConflict(core)
    ensures var u := SqlCalled(core, st, call).db; Ordered(u) && SoundBlobs(u)
    ensures CallRefined(core, st, call) && |Durable(core, st, call)| <= 1
  {
    hide Abs, Ordered, SqlApply, SqlClaim, SqlPutBlob, NoConflict;
    match call
    case Apply(c, fault) =>
      FaultedCallRefines(core, st, c, fault);
      ApplyKeepsBlobs(core, st, c, fault);
    case Claim(ref, executor) => ClaimRefines(core, st, ref, executor);
    case PutBlob(content) => BlobRefines(core, st, content); AbsBlobs(st.db);
    case Reopen =>
  }

  lemma AbsBlobs(t: Tables)
    ensures Abs(t).blobs == t.blobs
  {
  }

  lemma ApplyKeepsBlobs(core: Core, st: SqlState, c: Input, fault: Option<Boundary>)
    ensures SqlApply(core, st, c, fault).0.db.blobs == st.db.blobs
  {
    if c.command.unencodable.None? && fault != Some(BeforeBegin) && st.txn.None? {
      assert st == SqlState(st.db, None);
      BlobsKept(core, st.db, c, fault);
    }
    hide Transact;
  }

  lemma SurvivorsExtend(core: Core, front: seq<Lin.Call>, more: seq<Lin.Call>)
    requires |more| <= 1
    ensures Lin.MemAfter(core, front + more)
            == if more == [] then Lin.MemAfter(core, front) else Lin.Called(core, Lin.MemAfter(core, front), more[0])
  {
    if more == [] { assert front + more == front; } else { assert (front + more)[..|front|] == front; }
  }

  lemma EmptyRefines()
    ensures Ordered(NO_TABLES) && SoundBlobs(NO_TABLES) && Abs(NO_TABLES) == Mem.EMPTY
  {
    forall loop ensures LogOf(NO_TABLES, loop) == [] {
      assert EventKeys(NO_TABLES, loop) == {};
    }
  }

  /** So each loop's durable state is the fold of its accepted commands, whatever crashed, was retried or reopened. */
  lemma DurableIsLinear(core: Core, calls: seq<SqlCall>, loop: Str)
    requires NoConflict(core) && Lin.Counts(core)
    ensures Lin.LoopIs(core, Abs(SqlAfter(core, calls).db), loop,
                       Lin.OfLoop(Lin.Committed(core, Survivors(core, calls)), loop))
    ensures Mem.Intact(core, Abs(SqlAfter(core, calls).db))
  {
    RunRefines(core, calls);
    hide Abs, SqlAfter, Survivors, Lin.LoopIs, Mem.Intact;
    Lin.Linearised(core, Survivors(core, calls), loop);
    Lin.AlwaysIntact(core, Survivors(core, calls));
  }
}
