/** The SQLite store: tables changed inside one transaction per operation, with nine declared crash points. */
module SqliteStore {
  import opened Base
  import opened Records
  import opened Commands
  import opened StoreModel

  datatype Boundary =
    | BeforeBegin | AfterBegin | AfterReduceBeforeWrite | AfterOperationWrite | AfterEventsWrite | AfterSnapshotWrite
    | AfterOutboxWrite | BeforeCommit | AfterCommitBeforeResponse

  // Tables -----------------------------------------------------------------------------------------------------

  datatype LoopRow = LoopRow(revision: nat, snapshot: Snapshot, digest: Snapshot)

  /** The `accepted` flag and the outcome. */
  datatype Recorded = Took(applied: Applied) | Rejection(code: ErrorCode)

  datatype Operation = Operation(digest: Request, outcome: Recorded)

  datatype EventRow = EventRow(operationId: Str, event: Event)

  /** READY, STARTED, or the state of the observation that ended the invocation. */
  datatype Invocation = Ready | Started | Ended(state: Observation)

  datatype Row = Row(
    loop: Str, subject: Str, target: Str, action: Str, payload: string, key: Str, requestDigest: Str, revision: nat,
    state: Observation, invocation: Invocation, executor: Option<Str>, receipt: Option<Str>)

  datatype Descriptor = Descriptor(goal: string, createdAt: int)

  /** The loop column of an authority row is the loop its record names. */
  datatype Tables = Tables(
    loops: map<Str, LoopRow>, operations: map<(Str, Str), Operation>, events: map<(Str, nat), EventRow>,
    outbox: map<Str, Row>, blobs: Blobs, descriptors: map<Str, Descriptor>, actors: map<Str, Actor>,
    grants: map<Str, Grant>, receipts: map<Str, Receipt>, roots: map<(Str, Issuer), Str>)

  const NO_TABLES := Tables(map[], map[], map[], map[], map[], map[], map[], map[], map[], map[])

  /** How a group of statements ends: in order, with a `PersistenceCorruption` that no handler catches, with an error from
      SQLite, or with the protocol rejection of a value that has no canonical encoding. */
  datatype Trouble = NoTrouble | Corruption | DatabaseError | Refusal

  datatype Written = Written(tables: Tables, trouble: Trouble)

  function EventKeys(t: Tables, loop: Str): set<(Str, nat)> { set k | k in t.events && k.0 == loop }

  // Statements -------------------------------------------------------------------------------------------------

  function WithOperation(t: Tables, c: Input, outcome: Recorded): Tables {
    t.(operations := t.operations[Key(c) := Operation(c.command.request, outcome)])
  }

  /** Inserts events one by one; (loop, sequence) is the primary key. */
  function WithEvents(t: Tables, c: Input, events: seq<Numbered>): (w: Written)
    decreases |events|
  {
    if events == [] then Written(t, NoTrouble)
    else if (c.command.request.loop, events[0].sequence) in t.events then Written(t, DatabaseError)
    else
      var row := EventRow(c.command.request.operationId, events[0].event);
      WithEvents(t.(events := t.events[(c.command.request.loop, events[0].sequence) := row]), c, events[1..])
  }

  function WithSnapshot(t: Tables, loop: Str, s: Snapshot): Tables {
    t.(loops := t.loops[loop := LoopRow(s.loopRevision, s, s)])
  }

  function FreshRow(loop: Str, a: Attempt, payload: string): Row {
    Row(loop, a.effectRef, a.target, a.action, payload, a.key, a.requestDigest, a.revision, a.state,
        if a.state == Committed then Ready else Ended(a.state), None, a.receipt)
  }

  /** `ON CONFLICT(attempt_ref) DO UPDATE`: the loop and the executor stay, and an observation overrides the invocation
      state and the receipt. */
  function MergedRow(row: Row, a: Attempt, payload: string): Row {
    row.(subject := a.effectRef, target := a.target, action := a.action, payload := payload, key := a.key,
         requestDigest := a.requestDigest, revision := a.revision, state := a.state,
         invocation := if a.state == Committed then row.invocation else Ended(a.state),
         receipt := if a.state == Committed then row.receipt else a.receipt)
  }

  predicate KeyTaken(outbox: map<Str, Row>, ref: Str, key: Str) {
    exists other :: other in outbox && other != ref && outbox[other].key == key
  }

  function WireTrouble(w: Wire): Trouble {
    match w
    case Materialised(_) => NoTrouble
    case Missing => Corruption
    case Refusing => Refusal
  }

  function WithAttempt(core: Core, t: Tables, loop: Str, ref: Str, a: Attempt): Written {
    var w := core.wire(t.blobs, a);
    if WireTrouble(w) != NoTrouble then Written(t, WireTrouble(w))
    else if KeyTaken(t.outbox, ref, a.key) then Written(t, DatabaseError)
    else
      var row := if ref in t.outbox then MergedRow(t.outbox[ref], a, w.payload) else FreshRow(loop, a, w.payload);
      Written(t.(outbox := t.outbox[ref := row]), NoTrouble)
  }

  function WithAttempts(core: Core, t: Tables, s: Snapshot, refs: seq<Str>): Written
    requires forall ref :: ref in refs ==> ref in s.attempts
    decreases |refs|
  {
    if refs == [] then Written(t, NoTrouble)
    else
      var w := WithAttempt(core, t, s.loopRef, refs[0], s.attempts[refs[0]]);
      if w.trouble != NoTrouble then w else WithAttempts(core, w.tables, s, refs[1..])
  }

  /** The sorted references of a snapshot's attempts. */
  function AttemptOrder(core: Core, s: Snapshot): (refs: seq<Str>)
    ensures forall ref :: ref in refs ==> ref in s.attempts
  {
    Known(core.sorted(s.attempts.Keys), s.attempts.Keys)
  }

  function Known(refs: seq<Str>, known: set<Str>): (r: seq<Str>)
    ensures forall ref :: ref in r <==> ref in refs && ref in known
    ensures (forall ref :: ref in refs ==> ref in known) ==> r == refs
  {
    if refs == [] then [] else (if refs[0] in known then [refs[0]] else []) + Known(refs[1..], known)
  }

  function Unexpected(t: Tables, s: Snapshot): set<Str> {
    set ref | ref in t.outbox && t.outbox[ref].loop == s.loopRef && ref !in s.attempts
  }

  /** `_sync_outbox` */
  function WithOutbox(core: Core, t: Tables, s: Snapshot): Written {
    var w := WithAttempts(core, t, s, AttemptOrder(core, s));
    if w.trouble == NoTrouble && Unexpected(w.tables, s) != {} then Written(w.tables, Corruption) else w
  }

  function ActorsOf(ctx: Context, loop: Str): map<Str, Actor> {
    map ref | ref in ctx.actors && ctx.actors[ref].namespace == loop :: ctx.actors[ref]
  }

  function GrantsOf(ctx: Context, loop: Str): map<Str, Grant> {
    map ref | ref in ctx.grants && ctx.grants[ref].loop == loop :: ctx.grants[ref]
  }

  /** The rows of a new loop's trusted issuers. */
  function RootsOf(ctx: Context, loop: Str): map<(Str, Issuer), Str> {
    map i | i in ctx.roots :: (loop, i) := ctx.roots[i]
  }

  /** Inserts one actor: it has to be encoded, and its reference is the primary key. */
  function WithActor(t: Tables, ctx: Context, ref: Str): Written
    requires ref in ctx.actors
  {
    if ctx.actors[ref].encoding.Unencoded? then Written(t, Refusal)
    else if ref in t.actors then Written(t, DatabaseError)
    else Written(t.(actors := t.actors[ref := ctx.actors[ref]]), NoTrouble)
  }

  function WithActors(t: Tables, ctx: Context, refs: seq<Str>): Written
    requires forall ref :: ref in refs ==> ref in ctx.actors
    decreases |refs|
  {
    if refs == [] then Written(t, NoTrouble)
    else
      var w := WithActor(t, ctx, refs[0]);
      if w.trouble != NoTrouble then w else WithActors(w.tables, ctx, refs[1..])
  }

  function WithGrant(t: Tables, ctx: Context, ref: Str): Written
    requires ref in ctx.grants
  {
    if ctx.grants[ref].encoding.Unencoded? then Written(t, Refusal)
    else if ref in t.grants then Written(t, DatabaseError)
    else Written(t.(grants := t.grants[ref := ctx.grants[ref]]), NoTrouble)
  }

  function WithGrants(t: Tables, ctx: Context, refs: seq<Str>): Written
    requires forall ref :: ref in refs ==> ref in ctx.grants
    decreases |refs|
  {
    if refs == [] then Written(t, NoTrouble)
    else
      var w := WithGrant(t, ctx, refs[0]);
      if w.trouble != NoTrouble then w else WithGrants(w.tables, ctx, refs[1..])
  }

  /** Inserts the trusted issuers; (loop, kind, issuer) is the primary key. */
  function WithRoots(t: Tables, ctx: Context, loop: Str): Written {
    if RootsOf(ctx, loop).Keys !! t.roots.Keys then Written(t.(roots := t.roots + RootsOf(ctx, loop)), NoTrouble)
    else Written(t, DatabaseError)
  }

  /** The sorted references of the actors and of the grants that the registry has for a loop. */
  function ActorOrder(core: Core, ctx: Context, loop: Str): (refs: seq<Str>)
    ensures forall ref :: ref in refs ==> ref in ActorsOf(ctx, loop)
  {
    Known(core.sorted(ActorsOf(ctx, loop).Keys), ActorsOf(ctx, loop).Keys)
  }

  function GrantOrder(core: Core, ctx: Context, loop: Str): (refs: seq<Str>)
    ensures forall ref :: ref in refs ==> ref in GrantsOf(ctx, loop)
  {
    Known(core.sorted(GrantsOf(ctx, loop).Keys), GrantsOf(ctx, loop).Keys)
  }

  function WithRegistry(core: Core, t: Tables, ctx: Context, loop: Str): Written {
    var actors := WithActors(t, ctx, ActorOrder(core, ctx, loop));
    if actors.trouble != NoTrouble then actors
    else
      var grants := WithGrants(actors.tables, ctx, GrantOrder(core, ctx, loop));
      if grants.trouble != NoTrouble then grants else WithRoots(grants.tables, ctx, loop)
  }

  function WithDescriptor(t: Tables, loop: Str, goal: string, createdAt: int): Tables {
    t.(descriptors := t.descriptors[loop := Descriptor(goal, createdAt)])
  }

  /** `_sync_loop_identity`, for CreateLoop only. */
  function WithIdentity(core: Core, t: Tables, c: Input): Written {
    if !c.command.request.payload.Create? then Written(t, NoTrouble)
    else
      var loop := c.command.request.loop;
      if loop in t.descriptors then Written(t, DatabaseError)
      else
        var described :=
          WithDescriptor(t, loop, c.command.request.payload.startup.objective, c.command.request.issuedAt);
        if c.command.request.actor !in ActorsOf(c.context, loop) || c.command.request.grant !in GrantsOf(c.context, loop)
        then Written(described, Corruption)
        else WithRegistry(core, described, c.context, loop)
  }

  /** The references that the entries of `receipt_refs` name. */
  function ReceiptsNamed(r: Request): set<Str> {
    (if r.receipt.Some? then {r.receipt.value} else {}) + r.others.Values
  }

  /** The registry knows the receipt as one of the loop. */
  predicate Knows(ctx: Context, loop: Str, ref: Str) { ref in ctx.receipts && ctx.receipts[ref].loop == loop }

  /** A stored receipt is immutable. */
  predicate OtherReceipt(t: Tables, ref: Str, receipt: Receipt) {
    ref in t.receipts && t.receipts[ref].encoding != receipt.encoding
  }

  function WithReceipt(t: Tables, c: Input, ref: Str): Written {
    if !Knows(c.context, c.command.request.loop, ref) then Written(t, Corruption)
    else if c.context.receipts[ref].encoding.Unencoded? then Written(t, Refusal)
    else if ref !in t.receipts then Written(t.(receipts := t.receipts[ref := c.context.receipts[ref]]), NoTrouble)
    else Written(t, if OtherReceipt(t, ref, c.context.receipts[ref]) then Corruption else NoTrouble)
  }

  function WithReceipts(t: Tables, c: Input, refs: seq<Str>): Written
    decreases |refs|
  {
    if refs == [] then Written(t, NoTrouble)
    else
      var w := WithReceipt(t, c, refs[0]);
      if w.trouble != NoTrouble then w else WithReceipts(w.tables, c, refs[1..])
  }

  /** `_sync_receipts`; going through a reference once or twice is the same. */
  function WithAllReceipts(core: Core, t: Tables, c: Input): Written {
    WithReceipts(t, c, core.sorted(ReceiptsNamed(c.command.request)))
  }

  /** The three synchronisations after the snapshot is written. */
  function Synced(core: Core, t: Tables, c: Input, s: Snapshot): Written {
    var outbox := WithOutbox(core, t, s);
    if outbox.trouble != NoTrouble then outbox
    else
      var identity := WithIdentity(core, outbox.tables, c);
      if identity.trouble != NoTrouble then identity else WithAllReceipts(core, identity.tables, c)
  }

  // Transactions -----------------------------------------------------------------------------------------------

  /** How a transaction ends; an abandoned one stays open on its connection. */
  datatype Closing = Rollback(answer: Answer) | Commit(tables: Tables, answer: Answer) | Abandon(tables: Tables, answer: Answer)

  /** Recording a protocol rejection collides with the row of the accepted operation, outside any handler. */
  function AfterTrouble(w: Written): Closing
    requires w.trouble != NoTrouble
  {
    match w.trouble
    case Corruption => Abandon(w.tables, Corrupt)
    case DatabaseError => Rollback(Corrupt)
    case Refusal => Abandon(w.tables, Escaped)
  }

  /** The handlers of `apply` for a failure raised while reading and reducing. */
  function AfterFailure(t: Tables, c: Input, failure: Failure): Closing {
    match failure
    case Fault => Abandon(t, Died)
    case Rejected(code) =>
      if code == IdempotencyConflict then Rollback(Refused(code)) else Commit(WithOperation(t, c, Rejection(code)), Refused(code))
  }

  function SnapshotOf(t: Tables, loop: Str): Option<Snapshot> {
    if loop in t.loops then Some(t.loops[loop].snapshot) else None
  }

  /** The writes of an accepted command, from the operation row to the commit. */
  function WriteAll(core: Core, db: Tables, c: Input, t: Reduced, fault: Option<Boundary>): Closing {
    var loop := c.command.request.loop;
    var result := ResultOf(c, t);
    var operated := WithOperation(db, c, Took(result));
    if fault == Some(AfterOperationWrite) then Rollback(Crashed)
    else
      var logged := WithEvents(operated, c, Sequenced(|EventKeys(db, loop)|, t.events));
      if logged.trouble != NoTrouble then AfterTrouble(logged)
      else if fault == Some(AfterEventsWrite) then Rollback(Crashed)
      else
        var saved := WithSnapshot(logged.tables, loop, t.snapshot);
        if fault == Some(AfterSnapshotWrite) then Rollback(Crashed)
        else
          var synced := Synced(core, saved, c, t.snapshot);
          if synced.trouble != NoTrouble then AfterTrouble(synced)
          else if fault in {Some(AfterOutboxWrite), Some(BeforeCommit)} then Rollback(Crashed)
          else Commit(synced.tables, if fault == Some(AfterCommitBeforeResponse) then Crashed else Accepted(result))
  }

  function Transact(core: Core, db: Tables, c: Input, fault: Option<Boundary>): Closing {
    if fault == Some(AfterBegin) then Rollback(Crashed)
    else if Key(c) in db.operations then
      var op := db.operations[Key(c)];
      if op.digest != c.command.request || !c.command.sealed then Rollback(Refused(IdempotencyConflict))
      else
        match op.outcome
        case Took(applied) => Commit(db, Accepted(applied.(replayed := true)))
        case Rejection(code) => Commit(db, Refused(code))
    else
      var current := SnapshotOf(db, c.command.request.loop);
      if Admit(core, current, c).Stop? then AfterFailure(db, c, Admit(core, current, c).failure)
      else if core.reduce(current, c).Err? then AfterFailure(db, c, core.reduce(current, c).failure)
      else if fault == Some(AfterReduceBeforeWrite) then Rollback(Crashed)
      else
        var t := core.reduce(current, c).value;
        if core.encode(t.snapshot).Stop? then AfterFailure(db, c, core.encode(t.snapshot).failure)
        else WriteAll(core, db, c, t, fault)
  }

  /** The durable tables, and the transaction a connection still has open. */
  datatype SqlState = SqlState(db: Tables, txn: Option<Tables>)

  function Closed(st: SqlState, e: Closing): (SqlState, Answer) {
    match e
    case Rollback(answer) => (SqlState(st.db, None), answer)
    case Commit(tables, answer) => (SqlState(tables, None), answer)
    case Abandon(tables, answer) => (SqlState(st.db, Some(tables)), answer)
  }

  /** `SQLiteStore.apply` */
  function SqlApply(core: Core, st: SqlState, c: Input, fault: Option<Boundary>): (SqlState, Answer) {
    if c.command.unencodable.Some? then (st, Refused(CodeOf(c.command.unencodable.value)))
    else if fault == Some(BeforeBegin) then (st, Crashed)
    else if st.txn.Some? then (st, Unavailable)
    else Closed(st, Transact(core, st.db, c, fault))
  }

  // Claims -----------------------------------------------------------------------------------------------------

  predicate Claimable(t: Tables, ref: Str) {
    ref in t.outbox && t.outbox[ref].state == Committed && t.outbox[ref].invocation == Ready
  }

  /** Execution owned or not, the corruption of an unknown attempt, or a connection with an open transaction. */
  datatype Claim = Owned | NotOwned | NoSuchAttempt | Locked

  function WithClaim(t: Tables, ref: Str, executor: Str): Tables
    requires ref in t.outbox
  {
    t.(outbox := t.outbox[ref := t.outbox[ref].(invocation := Started, executor := Some(executor))])
  }

  /** `claim_attempt` */
  function SqlClaim(st: SqlState, ref: Str, executor: Str): (SqlState, Claim) {
    if st.txn.Some? then (st, Locked)
    else if Claimable(st.db, ref) then (SqlState(WithClaim(st.db, ref, executor), None), Owned)
    else (st, if ref in st.db.outbox then NotOwned else NoSuchAttempt)
  }

  /** `put_blob`: the digest, unless another content already has it or the connection is busy. */
  function SqlPutBlob(st: SqlState, content: string): (SqlState, Option<Str>) {
    var digest := BlobDigest(content);
    if st.txn.Some? then (st, None)
    else if digest !in st.db.blobs then (SqlState(st.db.(blobs := st.db.blobs[digest := content]), None), Some(digest))
    else (st, if st.db.blobs[digest] == content then Some(digest) else None)
  }

  // The store --------------------------------------------------------------------------------------------------

  /** One connection: `authority` is the registry in force, which a caller may replace between calls, `db` what is durable,
      and `working` what the open transaction sees. */
  class SQLiteStore {
    const core: Core
    var authority: Context
    var db: Tables
    var working: Tables
    var inTransaction: bool

    ghost function State(): SqlState
      reads this
    {
      SqlState(db, if inTransaction then Some(working) else None)
    }

    constructor (core: Core, authority: Context)
      ensures this.core == core && this.authority == authority && State() == SqlState(NO_TABLES, None)
    {
      this.core, this.authority := core, authority;
      db, working, inTransaction := NO_TABLES, NO_TABLES, false;
    }

    method Begin() returns (busy: bool)
      modifies this`working, this`inTransaction
      ensures busy == old(inTransaction) && inTransaction
      ensures !busy ==> working == db
      ensures busy ==> working == old(working)
    {
      busy := inTransaction;
      if !busy { working, inTransaction := db, true; }
    }

    method DoRollback()
      modifies this`inTransaction
      ensures !inTransaction
    {
      inTransaction := false;
    }

    method DoCommit()
      modifies this`db, this`inTransaction
      ensures !inTransaction && db == old(working)
    {
      db, inTransaction := working, false;
    }

    method WriteEvents(c: Input, events: seq<Numbered>) returns (trouble: Trouble)
      modifies this`working
      ensures Written(working, trouble) == WithEvents(old(working), c, events)
    {
      var i := 0;
      while i < |events|
        invariant 0 <= i <= |events|
        invariant WithEvents(old(working), c, events) == WithEvents(working, c, events[i..])
      {
        var key := (c.command.request.loop, events[i].sequence);
        assert events[i..][1..] == events[i + 1..];
        if key in working.events { return DatabaseError; }
        working := working.(events := working.events[key := EventRow(c.command.request.operationId, events[i].event)]);
        i := i + 1;
      }
      trouble := NoTrouble;
    }

    method UpsertAttempt(loop: Str, ref: Str, a: Attempt) returns (trouble: Trouble)
      modifies this`working
      ensures Written(working, trouble) == WithAttempt(core, old(working), loop, ref, a)
    {
      var wire := core.wire(working.blobs, a);
      if wire.Missing? { return Corruption; }
      if wire.Refusing? { return Refusal; }
      if exists other :: other in working.outbox && other != ref && working.outbox[other].key == a.key {
        return DatabaseError;
      }
      var row := FreshRow(loop, a, wire.payload);
      if ref in working.outbox { row := MergedRow(working.outbox[ref], a, wire.payload); }
      working := working.(outbox := working.outbox[ref := row]);
      trouble := NoTrouble;
    }

    method SyncOutbox(s: Snapshot) returns (trouble: Trouble)
      modifies this`working
      ensures Written(working, trouble) == WithOutbox(core, old(working), s)
    {
      var refs := AttemptOrder(core, s);
      var i := 0;
      while i < |refs|
        invariant 0 <= i <= |refs|
        invariant WithAttempts(core, old(working), s, refs) == WithAttempts(core, working, s, refs[i..])
      {
        assert refs[i] in refs && refs[i..][1..] == refs[i + 1..];
        trouble := UpsertAttempt(s.loopRef, refs[i], s.attempts[refs[i]]);
        if trouble != NoTrouble { return; }
        i := i + 1;
      }
      trouble := if Unexpected(working, s) != {} then Corruption else NoTrouble;
    }

    method SyncIdentity(c: Input) returns (trouble: Trouble)
      modifies this`working
      ensures Written(working, trouble) == WithIdentity(core, old(working), c)
    {
      if !c.command.request.payload.Create? { return NoTrouble; }
      var loop := c.command.request.loop;
      if loop in working.descriptors { return DatabaseError; }
      working :=
        WithDescriptor(working, loop, c.command.request.payload.startup.objective, c.command.request.issuedAt);
      var actors, grants := ActorsOf(c.context, loop), GrantsOf(c.context, loop);
      if c.command.request.actor !in actors || c.command.request.grant !in grants { return Corruption; }
      trouble := SyncActors(c.context, ActorOrder(core, c.context, loop));
      if trouble != NoTrouble { return; }
      trouble := SyncGrants(c.context, GrantOrder(core, c.context, loop));
      if trouble != NoTrouble { return; }
      var roots := RootsOf(c.context, loop);
      if !(roots.Keys !! working.roots.Keys) { return DatabaseError; }
      working := working.(roots := working.roots + roots);
      trouble := NoTrouble;
    }

    method SyncActors(ctx: Context, refs: seq<Str>) returns (trouble: Trouble)
      requires forall ref :: ref in refs ==> ref in ctx.actors
      modifies this`working
      ensures Written(working, trouble) == WithActors(old(working), ctx, refs)
    {
      var i := 0;
      while i < |refs|
        invariant 0 <= i <= |refs|
        invariant WithActors(old(working), ctx, refs) == WithActors(working, ctx, refs[i..])
      {
        assert refs[i] in refs && refs[i..][1..] == refs[i + 1..];
        var actor := ctx.actors[refs[i]];
        if actor.encoding.Unencoded? { return Refusal; }
        if refs[i] in working.actors { return DatabaseError; }
        working := working.(actors := working.actors[refs[i] := actor]);
        i := i + 1;
      }
      trouble := NoTrouble;
    }

    method SyncGrants(ctx: Context, refs: seq<Str>) returns (trouble: Trouble)
      requires forall ref :: ref in refs ==> ref in ctx.grants
      modifies this`working
      ensures Written(working, trouble) == WithGrants(old(working), ctx, refs)
    {
      var i := 0;
      while i < |refs|
        invariant 0 <= i <= |refs|
        invariant WithGrants(old(working), ctx, refs) == WithGrants(working, ctx, refs[i..])
      {
        assert refs[i] in refs && refs[i..][1..] == refs[i + 1..];
        var grant := ctx.grants[refs[i]];
        if grant.encoding.Unencoded? { return Refusal; }
        if refs[i] in working.grants { return DatabaseError; }
        working := working.(grants := working.grants[refs[i] := grant]);
        i := i + 1;
      }
      trouble := NoTrouble;
    }

    method SyncReceipts(c: Input) returns (trouble: Trouble)
      modifies this`working
      ensures Written(working, trouble) == WithAllReceipts(core, old(working), c)
    {
      var refs := core.sorted(ReceiptsNamed(c.command.request));
      var i := 0;
      while i < |refs|
        invariant 0 <= i <= |refs|
        invariant WithReceipts(old(working), c, refs) == WithReceipts(working, c, refs[i..])
      {
        assert refs[i..][1..] == refs[i + 1..];
        var ref := refs[i];
        if ref !in c.context.receipts || c.context.receipts[ref].loop != c.command.request.loop { return Corruption; }
        var receipt := c.context.receipts[ref];
        if receipt.encoding.Unencoded? { return Refusal; }
        if ref !in working.receipts {
          working := working.(receipts := working.receipts[ref := receipt]);
        } else if working.receipts[ref].encoding != receipt.encoding {
          return Corruption;
        }
        i := i + 1;
      }
      trouble := NoTrouble;
    }

    method SyncAll(c: Input, s: Snapshot) returns (trouble: Trouble)
      modifies this`working
      ensures Written(working, trouble) == Synced(core, old(working), c, s)
    {
      trouble := SyncOutbox(s);
      if trouble != NoTrouble { return; }
      trouble := SyncIdentity(c);
      if trouble != NoTrouble { return; }
      trouble := SyncReceipts(c);
    }

    /** Leaves the transaction the way a raised exception does. */
    method Fail(trouble: Trouble) returns (answer: Answer)
      requires inTransaction && trouble != NoTrouble
      modifies this`inTransaction
      ensures (State(), answer) == Closed(old(State()), AfterTrouble(Written(old(working), trouble)))
    {
      if trouble == DatabaseError { DoRollback(); }
      answer := if trouble == Refusal then Escaped else Corrupt;
    }

    method HandleFailure(c: Input, failure: Failure) returns (answer: Answer)
      requires inTransaction
      modifies this`db, this`working, this`inTransaction
      ensures (State(), answer) == Closed(old(State()), AfterFailure(old(working), c, failure))
    {
      match failure {
        case Fault => answer := Died;
        case Rejected(code) =>
          if code == IdempotencyConflict {
            DoRollback();
          } else {
            working := WithOperation(working, c, Rejection(code));
            DoCommit();
          }
          answer := Refused(code);
      }
    }

    /** The writes of an accepted command. */
    method Write(c: Input, t: Reduced, fault: Option<Boundary>) returns (answer: Answer)
      requires inTransaction
      modifies this`db, this`working, this`inTransaction
      ensures (State(), answer) == Closed(old(State()), WriteAll(core, old(working), c, t, fault))
    {
      hide Synced, WithEvents, Sequenced;
      var loop := c.command.request.loop;
      var start := |EventKeys(working, loop)|;
      var result := ResultOf(c, t);
      working := WithOperation(working, c, Took(result));
      if fault == Some(AfterOperationWrite) { DoRollback(); return Crashed; }
      var trouble := WriteEvents(c, Sequenced(start, t.events));
      if trouble != NoTrouble { answer := Fail(trouble); return; }
      if fault == Some(AfterEventsWrite) { DoRollback(); return Crashed; }
      working := WithSnapshot(working, loop, t.snapshot);
      if fault == Some(AfterSnapshotWrite) { DoRollback(); return Crashed; }
      trouble := SyncAll(c, t.snapshot);
      if trouble != NoTrouble { answer := Fail(trouble); return; }
      if fault == Some(AfterOutboxWrite) { DoRollback(); return Crashed; }
      if fault == Some(BeforeCommit) { DoRollback(); return Crashed; }
      DoCommit();
      answer := if fault == Some(AfterCommitBeforeResponse) then Crashed else Accepted(result);
    }

    /** Applies one command in one transaction, crashing at the given boundary if it gets there. */
    method Apply(command: Command, fault: Option<Boundary>) returns (answer: Answer)
      modifies this`db, this`working, this`inTransaction
      ensures (State(), answer) == SqlApply(core, old(State()), Input(command, authority), fault)
    {
      hide WriteAll;
      var c := Input(command, authority);
      if c.command.unencodable.Some? { return Refused(CodeOf(c.command.unencodable.value)); }
      if fault == Some(BeforeBegin) { return Crashed; }
      var busy := Begin();
      if busy { return Unavailable; }
      if fault == Some(AfterBegin) { DoRollback(); return Crashed; }
      if Key(c) in working.operations {
        var existing := working.operations[Key(c)];
        if existing.digest != c.command.request || !c.command.sealed { DoRollback(); return Refused(IdempotencyConflict); }
        DoCommit();
        match existing.outcome {
          case Took(applied) => return Accepted(applied.(replayed := true));
          case Rejection(code) => return Refused(code);
        }
      }
      var current := SnapshotOf(working, c.command.request.loop);
      var admitted := Admit(core, current, c);
      if admitted.Stop? { answer := HandleFailure(c, admitted.failure); return; }
      var reduced := core.reduce(current, c);
      if reduced.Err? { answer := HandleFailure(c, reduced.failure); return; }
      if fault == Some(AfterReduceBeforeWrite) { DoRollback(); return Crashed; }
      var digest := core.encode(reduced.value.snapshot);
      if digest.Stop? { answer := HandleFailure(c, digest.failure); return; }
      answer := Write(c, reduced.value, fault);
    }

    /** Consumes execution ownership of a ready attempt, once. */
    method ClaimAttempt(ref: Str, executor: Str) returns (claim: Claim)
      modifies this`db, this`working, this`inTransaction
      ensures State() == SqlClaim(old(State()), ref, executor).0
      ensures claim == SqlClaim(old(State()), ref, executor).1
    {
      var busy := Begin();
      if busy { return Locked; }
      if ref !in working.outbox { DoRollback(); return NoSuchAttempt; }
      if working.outbox[ref].state != Committed { DoCommit(); return NotOwned; }
      if working.outbox[ref].invocation != Ready { DoCommit(); return NotOwned; }
      working := WithClaim(working, ref, executor);
      DoCommit();
      claim := Owned;
    }

    method PutBlob(content: string) returns (digest: Option<Str>)
      modifies this`db, this`working, this`inTransaction
      ensures (State(), digest) == SqlPutBlob(old(State()), content)
    {
      var busy := Begin();
      if busy { return None; }
      digest := Some(BlobDigest(content));
      if digest.value !in working.blobs {
        working := working.(blobs := working.blobs[digest.value := content]);
      } else if working.blobs[digest.value] != content {
        DoRollback();
        return None;
      }
      DoCommit();
    }

    /** Closing the connection and opening the file again, under some registry, forgets an open transaction. */
    method Reopen(authority: Context)
      modifies this`inTransaction, this`authority
      ensures State() == SqlState(old(db), None) && this.authority == authority
    {
      inTransaction, this.authority := false, authority;
    }
  }
}
