/** Runs of the SQLite store: the outbox agrees with the snapshots, synchronisation succeeds under an exact condition on
    payloads, identities and receipts, and the integrity check never raises over loops, outbox and blobs. */
module OutboxRuns {
  import opened Base
  import opened Records
  import opened Commands
  import opened EffectCoupling
  import opened Invariant
  import opened StoreModel
  import opened SqliteStore
  import opened CrashRefinement
  import opened Refinement
  import opened Identities
  import opened Outbox
  import Mem = MemoryStore
  import Lin = Linearisation

  // The run ----------------------------------------------------------------------------------------------------

  /** Tables with the same loops, identities and row owners, whose loops are still in order. */
  lemma SameOwnersKeep(core: Core, t: Tables, u: Tables)
    requires OutboxInv(core, t)
    requires u.loops == t.loops && u.descriptors == t.descriptors && u.actors == t.actors && u.grants == t.grants
    requires u.receipts == t.receipts && u.roots == t.roots && u.outbox.Keys == t.outbox.Keys
    requires forall ref :: ref in t.outbox ==> u.outbox[ref].loop == t.outbox[ref].loop
    requires forall loop :: loop in u.loops ==> LoopStored(core, u, loop)
    ensures OutboxInv(core, u)
  {
    hide LoopStored;
    forall ref | ref in u.outbox ensures RowOwned(u, ref) { assert RowOwned(t, ref); }
  }

  lemma AgreementOfSame(core: Core, t: Tables, u: Tables, s: Snapshot)
    requires OutboxAgrees(core, t, s) && u.outbox == t.outbox && u.blobs == t.blobs
    ensures OutboxAgrees(core, u, s)
  {
    hide RowAgrees;
  }

  lemma LoopOf(core: Core, t: Tables, loop: Str)
    requires OutboxInv(core, t) && loop in t.loops
    ensures LoopStored(core, t, loop)
  {
    hide LoopStored, RowOwned, IdentityStored;
  }

  /** A loop stays stored as long as its rows agree. */
  lemma LoopStays(core: Core, t: Tables, u: Tables, loop: Str)
    requires loop in t.loops && LoopStored(core, t, loop) && u.loops == t.loops && u.descriptors == t.descriptors
    requires OutboxAgrees(core, u, t.loops[loop].snapshot)
    ensures LoopStored(core, u, loop)
  {
    hide Inv, OutboxAgrees, KnowsGoal;
  }

  lemma AgreementOf(core: Core, t: Tables, loop: Str)
    requires loop in t.loops && LoopStored(core, t, loop)
    ensures OutboxAgrees(core, t, t.loops[loop].snapshot)
  {
    hide Inv, OutboxAgrees, Described;
  }

  lemma OperationsKeepOutbox(core: Core, db: Tables, u: Tables)
    requires OutboxInv(core, db) && OperationsOnlyChange(db, u)
    ensures OutboxInv(core, u)
  {
    hide OutboxInv, LoopStored, OutboxAgrees;
    forall loop | loop in u.loops ensures LoopStored(core, u, loop) {
      LoopOf(core, db, loop);
      AgreementOf(core, db, loop);
      AgreementOfSame(core, db, u, db.loops[loop].snapshot);
      LoopStays(core, db, u, loop);
    }
    SameOwnersKeep(core, db, u);
  }

  lemma ApplyKeepsOutbox(core: Core, db: Tables, c: Input, fault: Option<Boundary>)
    requires OutboxInv(core, db) && Disciplined(core) && Sorts(core)
    ensures OutboxInv(core, SqlApply(core, SqlState(db, None), c, fault).0.db)
  {
    DurableOutbox(core, db, c, fault);
    var u := SqlApply(core, SqlState(db, None), c, fault).0.db;
    hide SqlApply, OutboxInv, OperationsOnlyChange, SyncedCommit, Disciplined, Sorts;
    if OperationsOnlyChange(db, u) { OperationsKeepOutbox(core, db, u); } else { CommitKeepsOutbox(core, db, c, u); }
  }

  lemma ClaimAgrees(row: Row, loop: Str, a: Attempt, executor: Str)
    requires RowAgrees(row, loop, a) && row.state == Committed && row.invocation == Ready
    ensures RowAgrees(row.(invocation := Started, executor := Some(executor)), loop, a)
  {
  }

  lemma ClaimKeepsAgreement(core: Core, t: Tables, ref: Str, executor: Str, s: Snapshot)
    requires Claimable(t, ref) && OutboxAgrees(core, t, s)
    ensures OutboxAgrees(core, WithClaim(t, ref, executor), s)
  {
    if ref in s.attempts { ClaimAgrees(t.outbox[ref], s.loopRef, s.attempts[ref], executor); }
    hide RowAgrees;
  }

  lemma ClaimKeepsOutbox(core: Core, st: SqlState, ref: Str, executor: Str)
    requires OutboxInv(core, st.db)
    ensures OutboxInv(core, SqlClaim(st, ref, executor).0.db)
  {
    hide OutboxInv, LoopStored, OutboxAgrees;
    if st.txn.None? && Claimable(st.db, ref) {
      var t, u := st.db, WithClaim(st.db, ref, executor);
      forall loop | loop in u.loops ensures LoopStored(core, u, loop) {
        LoopOf(core, t, loop);
        AgreementOf(core, t, loop);
        ClaimKeepsAgreement(core, t, ref, executor, t.loops[loop].snapshot);
        LoopStays(core, t, u, loop);
      }
      SameOwnersKeep(core, t, u);
    }
  }

  lemma BlobKeepsAgreement(core: Core, t: Tables, u: Tables, s: Snapshot)
    requires OutboxAgrees(core, t, s) && u == t.(blobs := u.blobs) && Extends(t.blobs, u.blobs) && WiresGrow(core)
    ensures OutboxAgrees(core, u, s)
  {
    hide RowAgrees;
  }

  lemma BlobKeepsOutbox(core: Core, st: SqlState, content: string)
    requires OutboxInv(core, st.db) && WiresGrow(core)
    ensures OutboxInv(core, SqlPutBlob(st, content).0.db)
  {
    hide OutboxInv, LoopStored, OutboxAgrees;
    var t, u := st.db, SqlPutBlob(st, content).0.db;
    assert u == t.(blobs := u.blobs) && Extends(t.blobs, u.blobs);
    hide SqlPutBlob, WiresGrow, Extends;
    forall loop | loop in u.loops ensures LoopStored(core, u, loop) {
      LoopOf(core, t, loop);
      AgreementOf(core, t, loop);
      BlobKeepsAgreement(core, t, u, t.loops[loop].snapshot);
      LoopStays(core, t, u, loop);
    }
    SameOwnersKeep(core, t, u);
  }

  /** In every run mixing commands, crashes, claims, blobs and reopened connections, the outbox agrees field by field
      with the snapshots, row for attempt. */
  lemma {:induction false} OutboxAlwaysAgrees(core: Core, calls: seq<SqlCall>)
    requires Disciplined(core) && Sorts(core) && WiresGrow(core)
    ensures OutboxInv(core, SqlAfter(core, calls).db)
  {
    if calls != [] {
      var front, last := calls[..|calls| - 1], calls[|calls| - 1];
      OutboxAlwaysAgrees(core, front);
      var st := SqlAfter(core, front);
      hide OutboxInv, SqlClaim, SqlPutBlob, Transact, Disciplined, Sorts, WiresGrow;
      match last
      case Apply(c, fault) =>
        if c.command.unencodable.None? && fault != Some(BeforeBegin) && st.txn.None? {
          assert st == SqlState(st.db, None);
          ApplyKeepsOutbox(core, st.db, c, fault);
        }
      case Claim(ref, executor) => ClaimKeepsOutbox(core, st, ref, executor);
      case PutBlob(content) => BlobKeepsOutbox(core, st, content);
      case Reopen =>
    }
  }

  /** A snapshot attempt that has been observed is stored as ended. */
  lemma ObservedIsConsumed(core: Core, t: Tables, loop: Str, ref: Str)
    requires OutboxInv(core, t) && loop in t.loops && ref in t.loops[loop].snapshot.attempts
    requires t.loops[loop].snapshot.attempts[ref].state != Committed
    ensures Consumed(t.outbox, ref)
  {
    hide OutboxInv, LoopStored;
    LoopOf(core, t, loop);
    AgreementOf(core, t, loop);
  }

  /** Once the stored snapshot of a loop shows an attempt as observed, unknown or unverifiable, no later claim of it is
      granted. */
  lemma ObservedSnapshotIsNeverClaimed(core: Core, calls: seq<SqlCall>, k: nat, loop: Str, ref: Str)
    requires Disciplined(core) && Sorts(core) && WiresGrow(core) && k <= |calls|
    requires var t := SqlAfter(core, calls[..k]).db;
             loop in t.loops && ref in t.loops[loop].snapshot.attempts
             && t.loops[loop].snapshot.attempts[ref].state != Committed
    ensures ClaimsOf(core, calls, ref) == ClaimsOf(core, calls[..k], ref)
  {
    hide SqlAfter, ClaimsOf, OutboxInv, Disciplined, Sorts, WiresGrow, Consumed;
    OutboxAlwaysAgrees(core, calls[..k]);
    ObservedIsConsumed(core, SqlAfter(core, calls[..k]).db, loop, ref);
    ObservedIsNeverClaimed(core, calls, k, ref);
  }

  // When synchronisation fails ---------------------------------------------------------------------------------

  /** Every attempt of the snapshot materialises from the stored blobs. */
  predicate Materialises(core: Core, blobs: Blobs, s: Snapshot) {
    forall ref :: ref in s.attempts ==> core.wire(blobs, s.attempts[ref]).Materialised?
  }

  /** The receipt a command names is registered for its loop, has an encoding, and is the one stored under its reference,
      if any is. */
  predicate ReceiptFits(t: Tables, c: Input, ref: Str) {
    && Knows(c.context, c.command.request.loop, ref) && c.context.receipts[ref].encoding.Encoded?
    && !OtherReceipt(t, ref, c.context.receipts[ref])
  }

  predicate ReceiptsFit(t: Tables, c: Input) {
    forall ref :: ref in ReceiptsNamed(c.command.request) ==> ReceiptFits(t, c, ref)
  }

  /** The command creates no loop, or every actor and grant that the registry has for the loop has an encoding and is not
      stored yet. */
  predicate IdentityFits(t: Tables, c: Input) {
    c.command.request.payload.Create? ==>
      && (forall a :: a in ActorsOf(c.context, c.command.request.loop) ==>
            RecordFits(c.context.actors[a].encoding, a in t.actors))
      && (forall g :: g in GrantsOf(c.context, c.command.request.loop) ==>
            RecordFits(c.context.grants[g].encoding, g in t.grants))
  }

  function PayloadsTrouble(core: Core, blobs: Blobs, s: Snapshot, refs: seq<Str>): Trouble
    requires forall ref :: ref in refs ==> ref in s.attempts
  {
    if refs == [] then NoTrouble
    else OrElse(WireTrouble(core.wire(blobs, s.attempts[refs[0]])), PayloadsTrouble(core, blobs, s, refs[1..]))
  }

  function IdentityTrouble(core: Core, t: Tables, c: Input): Trouble {
    if c.command.request.payload.Create? then RegistryTrouble(core, t, c.context, c.command.request.loop) else NoTrouble
  }

  function ReceiptTrouble(t: Tables, c: Input, ref: Str): Trouble {
    if !Knows(c.context, c.command.request.loop, ref) then Corruption
    else if c.context.receipts[ref].encoding.Unencoded? then Refusal
    else if OtherReceipt(t, ref, c.context.receipts[ref]) then Corruption
    else NoTrouble
  }

  function ReceiptsTrouble(t: Tables, c: Input, refs: seq<Str>): Trouble {
    if refs == [] then NoTrouble else OrElse(ReceiptTrouble(t, c, refs[0]), ReceiptsTrouble(t, c, refs[1..]))
  }

  /** The first trouble among the payloads of the attempts, the actors and grants of a new loop, and the receipts the
      command names, each in sorted order and looked up in the tables before the commit. */
  function SyncTrouble(core: Core, t: Tables, c: Input, s: Snapshot): Trouble {
    OrElse(PayloadsTrouble(core, t.blobs, s, AttemptOrder(core, s)),
          OrElse(IdentityTrouble(core, t, c), ReceiptsTrouble(t, c, core.sorted(ReceiptsNamed(c.command.request)))))
  }

  /** No row but an attempt's own has its provider key. */
  predicate KeysFree(outbox: map<Str, Row>, s: Snapshot) {
    forall r, ref :: r in outbox && ref in s.attempts && r != ref ==> outbox[r].key != s.attempts[ref].key
  }

  lemma UpsertKeepsFree(core: Core, t: Tables, s: Snapshot, ref: Str)
    requires Sendable(s) && ref in s.attempts && KeysFree(t.outbox, s) && core.wire(t.blobs, s.attempts[ref]).Materialised?
    ensures var w := WithAttempt(core, t, s.loopRef, ref, s.attempts[ref]);
            w.trouble == NoTrouble && KeysFree(w.tables.outbox, s) && w.tables.blobs == t.blobs
            && w.tables.outbox.Keys == t.outbox.Keys + {ref}
            && (forall r :: r in t.outbox && r != ref ==> w.tables.outbox[r] == t.outbox[r])
            && w.tables.outbox[ref].key == s.attempts[ref].key
            && w.tables.outbox[ref].loop == if ref in t.outbox then t.outbox[ref].loop else s.loopRef
  {
    hide Sound;
  }

  lemma {:induction false} AttemptsSucceed(core: Core, t: Tables, s: Snapshot, refs: seq<Str>)
    requires forall ref :: ref in refs ==> ref in s.attempts
    requires Sendable(s) && KeysFree(t.outbox, s) && Materialises(core, t.blobs, s)
    ensures var w := WithAttempts(core, t, s, refs);
            && w.trouble == NoTrouble && w.tables.outbox.Keys <= t.outbox.Keys + s.attempts.Keys
            && t.outbox.Keys <= w.tables.outbox.Keys
            && (forall r :: r in t.outbox ==> w.tables.outbox[r].loop == t.outbox[r].loop)
    decreases |refs|
  {
    if refs != [] {
      UpsertKeepsFree(core, t, s, refs[0]);
      hide WithAttempt, Sendable, KeysFree;
      AttemptsSucceed(core, WithAttempt(core, t, s.loopRef, refs[0], s.attempts[refs[0]]).tables, s, refs[1..]);
    }
  }

  /** Upserting attempts in order fails as the first payload does. */
  lemma {:induction false} AttemptsFail(core: Core, t: Tables, s: Snapshot, refs: seq<Str>)
    requires forall ref :: ref in refs ==> ref in s.attempts
    requires Sendable(s) && KeysFree(t.outbox, s)
    ensures WithAttempts(core, t, s, refs).trouble == PayloadsTrouble(core, t.blobs, s, refs)
    decreases |refs|
  {
    if refs != [] {
      if core.wire(t.blobs, s.attempts[refs[0]]).Materialised? {
        UpsertKeepsFree(core, t, s, refs[0]);
        hide WithAttempt, Sendable, KeysFree;
        AttemptsFail(core, WithAttempt(core, t, s.loopRef, refs[0], s.attempts[refs[0]]).tables, s, refs[1..]);
      } else {
        hide KeyTaken, FreshRow, MergedRow, Sendable, KeysFree;
      }
    }
  }

  lemma {:induction false} PayloadsTroubleIsNone(core: Core, blobs: Blobs, s: Snapshot, refs: seq<Str>)
    requires forall ref :: ref in refs ==> ref in s.attempts
    ensures PayloadsTrouble(core, blobs, s, refs) == NoTrouble
            <==> forall ref :: ref in refs ==> core.wire(blobs, s.attempts[ref]).Materialised?
    ensures PayloadsTrouble(core, blobs, s, refs) != DatabaseError
  {
    if refs != [] { PayloadsTroubleIsNone(core, blobs, s, refs[1..]); }
  }

  /** Provider keys of stored rows are free for the attempts of a loop's next snapshot. */
  lemma StoredKeysAreFree(core: Core, db: Tables, s: Snapshot)
    requires OutboxInv(core, db) && Sendable(s)
    requires s.loopRef in db.loops ==> AttemptsContinue(db.loops[s.loopRef].snapshot, s)
    ensures KeysFree(db.outbox, s)
  {
    forall r, ref | r in db.outbox && ref in s.attempts && r != ref ensures db.outbox[r].key != s.attempts[ref].key {
      RowFacts(core, db, r);
      assert Sound(s.attempts[ref], s.loopRef, ref);
      if db.outbox[r].loop == s.loopRef { RowIsMergeable(core, db, s.loopRef, s, r); }
      hide OutboxInv, OwnerOf, RowAgrees, Mergeable, AttemptMoves;
    }
  }

  lemma NothingUnexpected(core: Core, db: Tables, s: Snapshot)
    requires OutboxInv(core, db)
    requires s.loopRef in db.loops ==> AttemptsContinue(db.loops[s.loopRef].snapshot, s)
    ensures Unexpected(db, s) == {}
  {
    forall ref | ref in db.outbox && db.outbox[ref].loop == s.loopRef ensures ref in s.attempts {
      assert RowOwned(db, ref);
    }
    hide OutboxInv;
  }

  lemma MaterialisesExactly(core: Core, blobs: Blobs, s: Snapshot)
    requires Sorts(core)
    ensures PayloadsTrouble(core, blobs, s, AttemptOrder(core, s)) == NoTrouble <==> Materialises(core, blobs, s)
  {
    OrderCovers(core, s);
    PayloadsTroubleIsNone(core, blobs, s, AttemptOrder(core, s));
    hide AttemptOrder, PayloadsTrouble, Sorts;
  }

  lemma OutboxSyncs(core: Core, db: Tables, t: Tables, s: Snapshot)
    requires OutboxInv(core, db) && Sorts(core) && Sendable(s) && t.outbox == db.outbox && t.blobs == db.blobs
    requires s.loopRef in db.loops ==> AttemptsContinue(db.loops[s.loopRef].snapshot, s)
    ensures WithOutbox(core, t, s).trouble == PayloadsTrouble(core, db.blobs, s, AttemptOrder(core, s))
  {
    hide OutboxInv, KeysFree, AttemptsContinue, Sendable, PayloadsTrouble, Sorts;
    StoredKeysAreFree(core, db, s);
    NothingUnexpected(core, db, s);
    MaterialisesExactly(core, db.blobs, s);
    AttemptsFail(core, t, s, AttemptOrder(core, s));
    if Materialises(core, db.blobs, s) { AttemptsSucceed(core, t, s, AttemptOrder(core, s)); }
    hide WithAttempts, AttemptOrder;
  }

  /** Rows of trusted issuers never clash, because those of a new loop carry its name. */
  lemma RootsAreFree(t: Tables, c: Input)
    requires IdentityStored(t) && c.command.request.loop !in t.loops
    ensures RootsOf(c.context, c.command.request.loop).Keys !! t.roots.Keys
  {
  }

  lemma SameRegistry(core: Core, t: Tables, u: Tables, ctx: Context, loop: Str)
    requires u.actors == t.actors && u.grants == t.grants
    ensures RegistryTrouble(core, u, ctx, loop) == RegistryTrouble(core, t, ctx, loop)
  {
    SameActors(t, u, ctx, ActorOrder(core, ctx, loop));
    SameGrants(t, u, ctx, GrantOrder(core, ctx, loop));
    hide ActorsTrouble, GrantsTrouble, ActorOrder, GrantOrder;
  }

  lemma IdentitySyncs(core: Core, db: Tables, t: Tables, c: Input)
    requires IdentityStored(db) && t.descriptors == db.descriptors && Sorts(core)
    requires t.actors == db.actors && t.grants == db.grants && t.roots == db.roots
    requires c.command.request.payload.Create? <==> c.command.request.loop !in db.loops
    requires c.command.request.actor in ActorsOf(c.context, c.command.request.loop)
    requires c.command.request.grant in GrantsOf(c.context, c.command.request.loop)
    ensures WithIdentity(core, t, c).trouble == IdentityTrouble(core, db, c)
  {
    hide ActorsOf, GrantsOf, RootsOf, WithRegistry, RegistryTrouble, Sorts, WithDescriptor;
    if c.command.request.payload.Create? {
      var r, loop := c.command.request, c.command.request.loop;
      var d := WithDescriptor(t, loop, r.payload.startup.objective, r.issuedAt);
      DescriptorRow(t, loop, r.payload.startup.objective, r.issuedAt);
      RootsAreFree(db, c);
      RegistryFails(core, d, c.context, loop);
      SameRegistry(core, db, d, c.context, loop);
    }
  }

  lemma IdentityFitsExactly(core: Core, t: Tables, c: Input)
    requires Sorts(core)
    ensures IdentityTrouble(core, t, c) == NoTrouble <==> IdentityFits(t, c)
  {
    var ctx, loop := c.context, c.command.request.loop;
    OrdersCover(core, ctx, loop);
    ActorsTroubleIsNone(t, ctx, ActorOrder(core, ctx, loop));
    GrantsTroubleIsNone(t, ctx, GrantOrder(core, ctx, loop));
    assert forall a :: a in ActorsOf(ctx, loop) ==> a in ctx.actors;
    assert forall g :: g in GrantsOf(ctx, loop) ==> g in ctx.grants;
    hide ActorOrder, GrantOrder, ActorsTrouble, GrantsTrouble, ActorsOf, GrantsOf, RecordFits, Sorts, NoRepeats;
  }

  lemma StoringKeepsTrouble(t: Tables, c: Input, ref: Str, other: Str)
    requires WithReceipt(t, c, ref).trouble == NoTrouble
    ensures ReceiptTrouble(WithReceipt(t, c, ref).tables, c, other) == ReceiptTrouble(t, c, other)
  {
    var u := WithReceipt(t, c, ref).tables;
    assert u.receipts == if ref in t.receipts then t.receipts else t.receipts[ref := c.context.receipts[ref]];
    hide Knows, WithReceipt;
  }

  lemma {:induction false} SameReceipts(t: Tables, u: Tables, c: Input, refs: seq<Str>)
    requires forall ref :: ref in refs ==> ReceiptTrouble(u, c, ref) == ReceiptTrouble(t, c, ref)
    ensures ReceiptsTrouble(u, c, refs) == ReceiptsTrouble(t, c, refs)
  {
    if refs != [] { SameReceipts(t, u, c, refs[1..]); }
    hide ReceiptTrouble;
  }

  lemma OneReceiptFails(t: Tables, c: Input, ref: Str)
    ensures WithReceipt(t, c, ref).trouble == ReceiptTrouble(t, c, ref)
  {
    hide Knows;
  }

  /** Storing receipts in order fails as the first that does not fit the tables before. */
  lemma {:induction false} ReceiptsFail(t: Tables, c: Input, refs: seq<Str>)
    ensures WithReceipts(t, c, refs).trouble == ReceiptsTrouble(t, c, refs)
    decreases |refs|
  {
    if refs != [] {
      hide ReceiptTrouble, WithReceipt;
      OneReceiptFails(t, c, refs[0]);
      if WithReceipt(t, c, refs[0]).trouble == NoTrouble {
        var u := WithReceipt(t, c, refs[0]).tables;
        ReceiptsFail(u, c, refs[1..]);
        forall ref ensures ReceiptTrouble(u, c, ref) == ReceiptTrouble(t, c, ref) {
          StoringKeepsTrouble(t, c, refs[0], ref);
        }
        SameReceipts(t, u, c, refs[1..]);
      }
    }
  }

  lemma {:induction false} ReceiptsTroubleIsNone(t: Tables, c: Input, refs: seq<Str>)
    ensures ReceiptsTrouble(t, c, refs) == NoTrouble <==> forall ref :: ref in refs ==> ReceiptFits(t, c, ref)
    ensures ReceiptsTrouble(t, c, refs) != DatabaseError
  {
    if refs != [] {
      assert ReceiptTrouble(t, c, refs[0]) == NoTrouble <==> ReceiptFits(t, c, refs[0]);
      ReceiptsTroubleIsNone(t, c, refs[1..]);
    }
  }

  /** The receipt is stored as the registry has it. */
  predicate ReceiptStored(t: Tables, c: Input, ref: Str) {
    ref in c.context.receipts && ref in t.receipts && t.receipts[ref].encoding == c.context.receipts[ref].encoding
  }

  lemma OneReceiptStores(t: Tables, c: Input, ref: Str)
    requires WithReceipt(t, c, ref).trouble == NoTrouble
    ensures ReceiptStored(WithReceipt(t, c, ref).tables, c, ref)
  {
    var u := WithReceipt(t, c, ref).tables;
    assert u.receipts == if ref in t.receipts then t.receipts else t.receipts[ref := c.context.receipts[ref]];
    hide WithReceipt;
  }

  lemma ReceiptStays(t: Tables, u: Tables, c: Input, ref: Str)
    requires ReceiptStored(t, c, ref) && ReceiptsFrom(t, u, c)
    ensures ReceiptStored(u, c, ref)
  {
    hide Knows;
  }

  lemma {:induction false} ReceiptsStore(t: Tables, c: Input, refs: seq<Str>)
    requires WithReceipts(t, c, refs).trouble == NoTrouble
    ensures forall ref :: ref in refs ==> ReceiptStored(WithReceipts(t, c, refs).tables, c, ref)
    decreases |refs|
  {
    if refs != [] {
      hide WithReceipt, ReceiptStored, ReceiptsFrom;
      var u := WithReceipt(t, c, refs[0]).tables;
      ReceiptsStore(u, c, refs[1..]);
      ReceiptsFrame(u, c, refs[1..]);
      OneReceiptStores(t, c, refs[0]);
      ReceiptStays(u, WithReceipts(u, c, refs[1..]).tables, c, refs[0]);
    }
  }

  lemma AllReceiptsSync(core: Core, db: Tables, t: Tables, c: Input)
    requires t.receipts == db.receipts
    ensures WithAllReceipts(core, t, c).trouble == ReceiptsTrouble(db, c, core.sorted(ReceiptsNamed(c.command.request)))
  {
    var refs := core.sorted(ReceiptsNamed(c.command.request));
    ReceiptsFail(t, c, refs);
    SameReceipts(db, t, c, refs);
    hide WithReceipts, ReceiptsNamed, ReceiptsTrouble;
  }

  lemma ReceiptsFitExactly(core: Core, t: Tables, c: Input)
    requires Sorts(core)
    ensures ReceiptsTrouble(t, c, core.sorted(ReceiptsNamed(c.command.request))) == NoTrouble <==> ReceiptsFit(t, c)
  {
    ReceiptsTroubleIsNone(t, c, core.sorted(ReceiptsNamed(c.command.request)));
    hide ReceiptFits, ReceiptsTrouble, ReceiptsNamed, NoRepeats;
  }

  /** For an accepted command, synchronisation ends in the first trouble there is; so it succeeds exactly when every
      attempt materialises, the actors and grants of a loop it creates have encodings and are not stored yet, and every
      receipt it names is its loop's, has an encoding, and is none but the stored one. */
  lemma SyncFailsExactly(core: Core, db: Tables, c: Input)
    requires OutboxInv(core, db) && Disciplined(core) && Sorts(core)
    requires Attempted(core, SnapshotOf(db, c.command.request.loop), c).Ok?
    ensures var t := Attempted(core, SnapshotOf(db, c.command.request.loop), c).value;
            && Synced(core, Saved(db, c, t), c, t.snapshot).trouble == SyncTrouble(core, db, c, t.snapshot)
            && (SyncTrouble(core, db, c, t.snapshot) == NoTrouble
                <==> Materialises(core, db.blobs, t.snapshot) && IdentityFits(db, c) && ReceiptsFit(db, c))
  {
    var s := SnapshotOf(db, c.command.request.loop);
    var t := Attempted(core, s, c).value;
    hide Synced, Saved, Continues, Materialises, IdentityFits, ReceiptsFit, Disciplined, Sorts, OutboxInv,
         PayloadsTrouble, IdentityTrouble, ReceiptsTrouble;
    AttemptContinues(core, db, c);
    hide Attempted;
    SyncsExactly(core, db, c, t);
    MaterialisesExactly(core, db.blobs, t.snapshot);
    IdentityFitsExactly(core, db, c);
    ReceiptsFitExactly(core, db, c);
  }

  lemma SyncsExactly(core: Core, db: Tables, c: Input, t: Reduced)
    requires OutboxInv(core, db) && Sorts(core) && Continues(SnapshotOf(db, c.command.request.loop), c, t.snapshot)
    ensures Synced(core, Saved(db, c, t), c, t.snapshot).trouble == SyncTrouble(core, db, c, t.snapshot)
  {
    hide Continues, Sorts, Sendable, AttemptsContinue, Saved, WithIdentity, WithAllReceipts, WithOutbox,
         IdentityStored, LoopStored, RowOwned, Registered, PayloadsTrouble, IdentityTrouble, ReceiptsTrouble,
         IdentityTaken;
    var s := SnapshotOf(db, c.command.request.loop);
    ContinuesIsSendable(s, c, t.snapshot);
    ContinuesNames(s, c, t.snapshot);
    SavedOutbox(db, c, t);
    var saved := Saved(db, c, t);
    OutboxSyncs(core, db, saved, t.snapshot);
    OutboxOnlyChanges(core, saved, t.snapshot);
    var o := WithOutbox(core, saved, t.snapshot).tables;
    IdentitySyncs(core, db, o, c);
    if WithIdentity(core, o, c).trouble == NoTrouble {
      IdentitySynced(core, o, c);
      AllReceiptsSync(core, db, WithIdentity(core, o, c).tables, c);
    }
  }

  lemma ContinuesNames(s: Option<Snapshot>, c: Input, t: Snapshot)
    requires Continues(s, c, t)
    ensures s.None? <==> c.command.request.payload.Create?
    ensures c.command.request.actor in ActorsOf(c.context, c.command.request.loop)
    ensures c.command.request.grant in GrantsOf(c.context, c.command.request.loop)
  {
    hide Inv, AttemptsContinue, KnowsGoal, ActorsOf, GrantsOf;
  }

  // Integrity --------------------------------------------------------------------------------------------------

  /** Rows as `verify_integrity` compares them, recomputing each payload. */
  predicate RowVerified(core: Core, t: Tables, s: Snapshot, ref: Str)
    requires ref in t.outbox
  {
    && ref in s.attempts
    && var a := s.attempts[ref]; var row := t.outbox[ref];
       && row.subject == a.effectRef && row.target == a.target && row.action == a.action
       && core.wire(t.blobs, a) == Materialised(row.payload) && row.key == a.key && row.requestDigest == a.requestDigest
       && row.revision == a.revision && row.state == a.state
       && (a.state != Committed ==> row.invocation == Ended(a.state) && row.receipt == a.receipt)
       && (a.state == Committed ==> row.invocation in {Ready, Started})
  }

  predicate LoopVerified(core: Core, t: Tables, loop: Str)
    requires loop in t.loops
  {
    var s := t.loops[loop].snapshot;
    && RowIs(t.loops[loop]) && core.encode(s).Pass? && Described(t, loop, s)
    && |Mem.InLoop(Accepts(t.operations).Keys, loop)| == t.loops[loop].revision
    && Mem.Contiguous(Sequenced(0, LogOf(t, loop)))
    && (forall ref :: ref in t.outbox && t.outbox[ref].loop == loop ==> RowVerified(core, t, s, ref))
    && (forall ref :: ref in s.attempts ==> ref in t.outbox && t.outbox[ref].loop == loop)
  }

  /** `SQLiteStore.verify_integrity`, apart from the authority tables. */
  predicate Verified(core: Core, t: Tables) {
    && (forall loop :: loop in t.loops ==> LoopVerified(core, t, loop))
    && SoundBlobs(t)
  }

  lemma RowVerifies(core: Core, t: Tables, s: Snapshot, ref: Str)
    requires ref in t.outbox && ref in s.attempts && OutboxAgrees(core, t, s)
    ensures RowVerified(core, t, s, ref)
  {
  }

  lemma StoredFacts(core: Core, t: Tables, loop: Str)
    requires loop in t.loops && LoopStored(core, t, loop)
    ensures var s := t.loops[loop].snapshot;
            s.loopRef == loop && core.encode(s).Pass? && Described(t, loop, s) && OutboxAgrees(core, t, s)
  {
    hide Inv, OutboxAgrees, Described;
  }

  lemma OwnRows(core: Core, t: Tables, ref: Str)
    requires OutboxInv(core, t) && ref in t.outbox
    ensures RowOwned(t, ref)
  {
    hide LoopStored, IdentityStored;
  }

  lemma RowsVerify(core: Core, t: Tables, loop: Str)
    requires OutboxInv(core, t) && loop in t.loops
    ensures forall ref :: ref in t.outbox && t.outbox[ref].loop == loop ==> RowVerified(core, t, t.loops[loop].snapshot, ref)
    ensures forall ref :: ref in t.loops[loop].snapshot.attempts ==> ref in t.outbox && t.outbox[ref].loop == loop
    ensures core.encode(t.loops[loop].snapshot).Pass? && Described(t, loop, t.loops[loop].snapshot)
  {
    hide OutboxInv, LoopStored, RowVerified, Described;
    LoopOf(core, t, loop);
    StoredFacts(core, t, loop);
    forall ref | ref in t.outbox && t.outbox[ref].loop == loop ensures RowVerified(core, t, t.loops[loop].snapshot, ref) {
      OwnRows(core, t, ref);
      RowVerifies(core, t, t.loops[loop].snapshot, ref);
    }
  }

  lemma LedgerVerifies(core: Core, t: Tables, loop: Str)
    requires Ordered(t) && Mem.Intact(core, Abs(t)) && loop in t.loops
    ensures RowIs(t.loops[loop]) && |Mem.InLoop(Accepts(t.operations).Keys, loop)| == t.loops[loop].revision
    ensures Mem.Contiguous(Sequenced(0, LogOf(t, loop)))
  {
    hide LogOf, LogIs, Sequenced, Accepts, Rejects, Mem.Contiguous, Mem.InLoop;
    assert Mem.LoopIntact(core, Abs(t), loop);
  }

  /** The integrity check of the SQLite store never raises over loops, operations, events, outbox and blobs, after any
      run; `AuthorityReload` is about the rest of it. */
  lemma AlwaysVerified(core: Core, calls: seq<SqlCall>)
    requires Disciplined(core) && Sorts(core) && WiresGrow(core) && NoConflict(core) && Lin.Counts(core)
    ensures Verified(core, SqlAfter(core, calls).db)
  {
    var t := SqlAfter(core, calls).db;
    hide SqlAfter, OutboxInv, Ordered, Mem.Intact, Abs, Disciplined, Sorts, WiresGrow, NoConflict, Lin.Counts, SoundBlobs,
         Described, RowVerified;
    OutboxAlwaysAgrees(core, calls);
    RunRefines(core, calls);
    DurableIsLinear(core, calls, Text(""));
    forall loop | loop in t.loops ensures LoopVerified(core, t, loop) {
      RowsVerify(core, t, loop);
      LedgerVerifies(core, t, loop);
    }
  }
}
