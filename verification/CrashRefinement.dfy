/** The SQLite store refines the in-memory one: each crash point leaves the durable tables before or after the whole
    operation, retrying completes it, and any run is a run of the reference store. */
module CrashRefinement {
  import opened Base
  import opened Records
  import opened Commands
  import opened StoreModel
  import opened SqliteStore
  import Lin = Linearisation

  // Frames -----------------------------------------------------------------------------------------------------

  lemma {:induction false} EventsFrame(t: Tables, c: Input, events: seq<Numbered>)
    ensures var u := WithEvents(t, c, events).tables; u == t.(events := u.events)
    decreases |events|
  {
    if events != [] && (c.command.request.loop, events[0].sequence) !in t.events {
      var row := EventRow(c.command.request.operationId, events[0].event);
      EventsFrame(t.(events := t.events[(c.command.request.loop, events[0].sequence) := row]), c, events[1..]);
    }
  }

  predicate OnlyOutbox(t: Tables, u: Tables) { u == t.(outbox := u.outbox) }

  lemma AttemptFrame(core: Core, t: Tables, loop: Str, ref: Str, a: Attempt)
    ensures OnlyOutbox(t, WithAttempt(core, t, loop, ref, a).tables)
  {
    hide KeyTaken, FreshRow, MergedRow;
  }

  lemma OutboxesCompose(t: Tables, u: Tables, v: Tables)
    requires OnlyOutbox(t, u) && OnlyOutbox(u, v)
    ensures OnlyOutbox(t, v)
  {
  }

  lemma {:induction false} AttemptsFrame(core: Core, t: Tables, s: Snapshot, refs: seq<Str>)
    requires forall ref :: ref in refs ==> ref in s.attempts
    ensures OnlyOutbox(t, WithAttempts(core, t, s, refs).tables)
    decreases |refs|
  {
    if refs == [] {
      assert WithAttempts(core, t, s, refs).tables == t;
    } else {
      hide OnlyOutbox, WithAttempt;
      AttemptFrame(core, t, s.loopRef, refs[0], s.attempts[refs[0]]);
      var u := WithAttempt(core, t, s.loopRef, refs[0], s.attempts[refs[0]]).tables;
      AttemptsFrame(core, u, s, refs[1..]);
      OutboxesCompose(t, u, WithAttempts(core, u, s, refs[1..]).tables);
    }
  }

  /** Synchronisation leaves loops, operations, events and blobs alone. */
  predicate SameRecord(t: Tables, u: Tables) {
    u.loops == t.loops && u.operations == t.operations && u.events == t.events && u.blobs == t.blobs
  }

  lemma OutboxFrame(core: Core, t: Tables, s: Snapshot)
    ensures SameRecord(t, WithOutbox(core, t, s).tables)
  {
    AttemptsFrame(core, t, s, AttemptOrder(core, s));
    hide WithAttempts, Unexpected;
  }

  predicate OnlyActors(t: Tables, u: Tables) { u == t.(actors := u.actors) }

  lemma ActorFrame(t: Tables, ctx: Context, ref: Str)
    requires ref in ctx.actors
    ensures OnlyActors(t, WithActor(t, ctx, ref).tables)
  {
  }

  lemma ActorsCompose(t: Tables, u: Tables, v: Tables)
    requires OnlyActors(t, u) && OnlyActors(u, v)
    ensures OnlyActors(t, v)
  {
  }

  lemma {:induction false} ActorsFrame(t: Tables, ctx: Context, refs: seq<Str>)
    requires forall ref :: ref in refs ==> ref in ctx.actors
    ensures OnlyActors(t, WithActors(t, ctx, refs).tables)
    decreases |refs|
  {
    if refs == [] {
      assert WithActors(t, ctx, refs).tables == t;
    } else {
      hide OnlyActors, WithActor;
      ActorFrame(t, ctx, refs[0]);
      var u := WithActor(t, ctx, refs[0]).tables;
      ActorsFrame(u, ctx, refs[1..]);
      ActorsCompose(t, u, WithActors(u, ctx, refs[1..]).tables);
    }
  }

  predicate OnlyGrants(t: Tables, u: Tables) { u == t.(grants := u.grants) }

  lemma GrantFrame(t: Tables, ctx: Context, ref: Str)
    requires ref in ctx.grants
    ensures OnlyGrants(t, WithGrant(t, ctx, ref).tables)
  {
  }

  lemma GrantsCompose(t: Tables, u: Tables, v: Tables)
    requires OnlyGrants(t, u) && OnlyGrants(u, v)
    ensures OnlyGrants(t, v)
  {
  }

  lemma {:induction false} GrantsFrame(t: Tables, ctx: Context, refs: seq<Str>)
    requires forall ref :: ref in refs ==> ref in ctx.grants
    ensures OnlyGrants(t, WithGrants(t, ctx, refs).tables)
    decreases |refs|
  {
    if refs == [] {
      assert WithGrants(t, ctx, refs).tables == t;
    } else {
      hide OnlyGrants, WithGrant;
      GrantFrame(t, ctx, refs[0]);
      var u := WithGrant(t, ctx, refs[0]).tables;
      GrantsFrame(u, ctx, refs[1..]);
      GrantsCompose(t, u, WithGrants(u, ctx, refs[1..]).tables);
    }
  }

  lemma RootsFrame(t: Tables, ctx: Context, loop: Str)
    ensures WithRoots(t, ctx, loop).tables == t.(roots := WithRoots(t, ctx, loop).tables.roots)
  {
    hide RootsOf;
  }

  predicate OnlyRegistry(t: Tables, u: Tables) { u == t.(actors := u.actors, grants := u.grants, roots := u.roots) }

  lemma RegistryFrame(core: Core, t: Tables, ctx: Context, loop: Str)
    ensures OnlyRegistry(t, WithRegistry(core, t, ctx, loop).tables)
  {
    hide WithActors, WithGrants, WithRoots, ActorOrder, GrantOrder;
    var actors := WithActors(t, ctx, ActorOrder(core, ctx, loop)).tables;
    ActorsFrame(t, ctx, ActorOrder(core, ctx, loop));
    GrantsFrame(actors, ctx, GrantOrder(core, ctx, loop));
    RootsFrame(WithGrants(actors, ctx, GrantOrder(core, ctx, loop)).tables, ctx, loop);
  }

  lemma DescriptorFrame(t: Tables, loop: Str, goal: string, createdAt: int)
    ensures var u := WithDescriptor(t, loop, goal, createdAt); u == t.(descriptors := u.descriptors)
  {
  }

  predicate OnlyIdentity(t: Tables, u: Tables) {
    u == t.(descriptors := u.descriptors, actors := u.actors, grants := u.grants, roots := u.roots)
  }

  lemma IdentityFrame(core: Core, t: Tables, c: Input)
    ensures OnlyIdentity(t, WithIdentity(core, t, c).tables)
    ensures SameRecord(t, WithIdentity(core, t, c).tables) && WithIdentity(core, t, c).tables.outbox == t.outbox
  {
    hide WithDescriptor, WithRegistry, ActorsOf, GrantsOf;
    if c.command.request.payload.Create? {
      var loop, goal := c.command.request.loop, c.command.request.payload.startup.objective;
      DescriptorFrame(t, loop, goal, c.command.request.issuedAt);
      RegistryFrame(core, WithDescriptor(t, loop, goal, c.command.request.issuedAt), c.context, loop);
    }
  }

  /** Stored receipts stay, and new ones are those the registry knows for the loop of the command. */
  predicate ReceiptsFrom(t: Tables, u: Tables, c: Input) {
    && (forall r :: r in t.receipts ==> r in u.receipts && u.receipts[r] == t.receipts[r])
    && (forall r :: r in u.receipts && r !in t.receipts ==>
          Knows(c.context, c.command.request.loop, r) && u.receipts[r] == c.context.receipts[r])
  }

  predicate OnlyReceipts(t: Tables, u: Tables, c: Input) { u == t.(receipts := u.receipts) && ReceiptsFrom(t, u, c) }

  lemma ReceiptFrame(t: Tables, c: Input, ref: Str)
    ensures OnlyReceipts(t, WithReceipt(t, c, ref).tables, c) && WithReceipt(t, c, ref).trouble != DatabaseError
  {
    hide OtherReceipt;
    var u := WithReceipt(t, c, ref).tables;
    if Knows(c.context, c.command.request.loop, ref) && c.context.receipts[ref].encoding.Encoded? && ref !in t.receipts {
      assert u == t.(receipts := t.receipts[ref := c.context.receipts[ref]]);
    } else {
      assert u == t;
    }
  }

  lemma ReceiptsCompose(t: Tables, u: Tables, v: Tables, c: Input)
    requires OnlyReceipts(t, u, c) && OnlyReceipts(u, v, c)
    ensures OnlyReceipts(t, v, c)
  {
    hide Knows;
  }

  lemma {:induction false} ReceiptsFrame(t: Tables, c: Input, refs: seq<Str>)
    ensures OnlyReceipts(t, WithReceipts(t, c, refs).tables, c) && WithReceipts(t, c, refs).trouble != DatabaseError
    decreases |refs|
  {
    if refs == [] {
      assert WithReceipts(t, c, refs).tables == t;
    } else {
      hide OnlyReceipts, WithReceipt;
      ReceiptFrame(t, c, refs[0]);
      var u := WithReceipt(t, c, refs[0]).tables;
      ReceiptsFrame(u, c, refs[1..]);
      ReceiptsCompose(t, u, WithReceipts(u, c, refs[1..]).tables, c);
    }
  }

  lemma AllReceiptsFrame(core: Core, t: Tables, c: Input)
    ensures OnlyReceipts(t, WithAllReceipts(core, t, c).tables, c)
    ensures SameRecord(t, WithAllReceipts(core, t, c).tables) && WithAllReceipts(core, t, c).tables.outbox == t.outbox
    ensures WithAllReceipts(core, t, c).trouble != DatabaseError
  {
    ReceiptsFrame(t, c, core.sorted(ReceiptsNamed(c.command.request)));
    hide WithReceipts, ReceiptsNamed, ReceiptsFrom;
  }

  lemma SyncedFrame(core: Core, t: Tables, c: Input, s: Snapshot)
    ensures SameRecord(t, Synced(core, t, c, s).tables)
    ensures Synced(core, t, c, s).trouble == NoTrouble ==>
              WithOutbox(core, t, s).trouble == NoTrouble
              && Synced(core, t, c, s).tables.outbox == WithOutbox(core, t, s).tables.outbox
  {
    hide WithOutbox, WithIdentity, WithAllReceipts;
    OutboxFrame(core, t, s);
    var outbox := WithOutbox(core, t, s);
    IdentityFrame(core, outbox.tables, c);
    AllReceiptsFrame(core, WithIdentity(core, outbox.tables, c).tables, c);
  }

  // Crash points -----------------------------------------------------------------------------------------------

  /** A faulted transaction rolls back, or ends like the whole one, but for a response lost behind the commit. */
  predicate AllOrNothing(e: Closing, whole: Closing, fault: Option<Boundary>) {
    && whole.answer != Crashed
    && (e.answer == Crashed ==>
          if fault == Some(AfterCommitBeforeResponse) then
            whole.Commit? && whole.answer.Accepted? && e == Commit(whole.tables, Crashed)
          else e == Rollback(Crashed))
    && (e.answer != Crashed ==> e == whole)
  }

  lemma WritesAreAllOrNothing(core: Core, db: Tables, c: Input, t: Reduced, fault: Option<Boundary>)
    ensures AllOrNothing(WriteAll(core, db, c, t, fault), WriteAll(core, db, c, t, None), fault)
  {
    hide WithOperation, WithEvents, WithSnapshot, Synced, Sequenced, ResultOf;
  }

  lemma TransactionIsAllOrNothing(core: Core, db: Tables, c: Input, fault: Option<Boundary>)
    ensures AllOrNothing(Transact(core, db, c, fault), Transact(core, db, c, None), fault)
  {
    hide WriteAll, Admit, WithOperation;
    var current := SnapshotOf(db, c.command.request.loop);
    if core.reduce(current, c).Ok? {
      WritesAreAllOrNothing(core, db, c, core.reduce(current, c).value, fault);
    }
  }

  /** At each of the nine boundaries the durable tables are the complete state before the operation or the complete
      state after it, and a crashed connection has no open transaction. */
  lemma CrashIsAllOrNothing(core: Core, db: Tables, c: Input, fault: Option<Boundary>)
    ensures var (after, answer) := SqlApply(core, SqlState(db, None), c, fault);
            var (post, whole) := SqlApply(core, SqlState(db, None), c, None);
            && (after.db == db || after.db == post.db)
            && (answer == Crashed && fault != Some(AfterCommitBeforeResponse) ==> after == SqlState(db, None))
            && (answer == Crashed && fault == Some(AfterCommitBeforeResponse) ==> after == post && whole.Accepted?)
            && (answer != Crashed ==> after == post && answer == whole)
            && whole != Crashed
  {
    hide Transact;
    TransactionIsAllOrNothing(core, db, c, fault);
  }

  lemma CommitRecords(core: Core, db: Tables, c: Input, t: Reduced, fault: Option<Boundary>)
    requires WriteAll(core, db, c, t, fault).Commit?
    ensures var u := WriteAll(core, db, c, t, fault).tables;
            Key(c) in u.operations && u.operations[Key(c)] == Operation(c.command.request, Took(ResultOf(c, t)))
    ensures WriteAll(core, db, c, t, fault).answer in {Crashed, Accepted(ResultOf(c, t))}
  {
    hide WithEvents, Synced, Sequenced, ResultOf;
    var operated := WithOperation(db, c, Took(ResultOf(c, t)));
    var events := Sequenced(|EventKeys(db, c.command.request.loop)|, t.events);
    EventsFrame(operated, c, events);
    var logged := WithEvents(operated, c, events).tables;
    SyncedFrame(core, WithSnapshot(logged, c.command.request.loop, t.snapshot), c, t.snapshot);
  }

  /** Retrying a crashed command, under whatever registry is in force by then, is a first call if it crashed before the
      commit; behind the commit it returns the stored result of the crashed call and changes nothing. */
  lemma CrashThenRetry(core: Core, db: Tables, c: Input, fault: Option<Boundary>, ctx: Context)
    requires Lin.Counts(core) && SqlApply(core, SqlState(db, None), c, fault).1 == Crashed
    ensures var (after, _) := SqlApply(core, SqlState(db, None), c, fault);
            var (post, whole) := SqlApply(core, SqlState(db, None), c, None);
            var again := Input(c.command, ctx);
            SqlApply(core, after, again, None)
            == if fault == Some(AfterCommitBeforeResponse) && whole.Accepted?
               then (post, Accepted(whole.applied.(replayed := true))) else SqlApply(core, SqlState(db, None), again, None)
    ensures fault == Some(AfterCommitBeforeResponse) ==> SqlApply(core, SqlState(db, None), c, None).1.Accepted?
  {
    CrashIsAllOrNothing(core, db, c, fault);
    if fault == Some(AfterCommitBeforeResponse) {
      var t := core.reduce(SnapshotOf(db, c.command.request.loop), c).value;
      WriteCommits(core, db, c, fault);
      CommitRecords(core, db, c, t, None);
      assert c.command.sealed;
    }
    hide WriteAll, Admit, AfterFailure, Lin.Counts;
  }

  lemma WriteCommits(core: Core, db: Tables, c: Input, fault: Option<Boundary>)
    requires fault == Some(AfterCommitBeforeResponse) && SqlApply(core, SqlState(db, None), c, fault).1 == Crashed
    ensures c.command.unencodable.None? && Key(c) !in db.operations
    ensures var current := SnapshotOf(db, c.command.request.loop);
            && core.reduce(current, c).Ok?
            && var t := core.reduce(current, c).value;
               && Transact(core, db, c, None) == WriteAll(core, db, c, t, None)
               && WriteAll(core, db, c, t, None).Commit?
  {
    hide WriteAll, Admit, WithOperation;
    var current := SnapshotOf(db, c.command.request.loop);
    if core.reduce(current, c).Ok? {
      WritesAreAllOrNothing(core, db, c, core.reduce(current, c).value, fault);
    }
  }
}
