/** Concrete runs of the SQLite store over the kernel that leave its connection unusable. */
module StoreCounterexamples {
  import opened Base
  import opened Records
  import opened Commands
  import opened Authority
  import opened Kernel
  import opened Transitions
  import opened PlanProgress
  import opened Invariant
  import opened Runs
  import opened StorageMode
  import opened Counterexamples
  import opened StoreModel
  import opened KernelStore
  import Sql = SqliteStore
  import Ref = Refinement
  import Outbox
  import OutboxRuns
  import OpenTransactions
  import Lin = Linearisation
  import Reload = AuthorityReload

  const GOAL := Text("g000")

  /** A pause that names receipts; the reducer looks at none. */
  function PauseCommand(receipt: Option<Str>, others: map<string, Str>): Command {
    Command(Request(Text("pause"), ACTOR, GRANT, LOOP, LoopRef, LOOP, 1, [], 0, map[], map[], receipt, others,
                    Pause("later", None)), None, None, true)
  }

  /** The registry of the run with other receipts in it. */
  function CtxWith(receipts: map<Str, Receipt>): Context { Ctx(GOAL).(receipts := receipts) }

  /** The creation of the run's loop, whose start confirmation the store keeps. */
  const CREATION := Input(CreateCommand([GOAL]), Ctx(GOAL))

  /** None of the names is read as a reference to a record. */
  predicate Plain(others: map<string, Str>) { forall name :: name in others ==> KindOf(others[name]).None? }

  lemma AuthorityIgnoresReceipts(s: Snapshot, r: Request, ctx: Context, receipts: map<Str, Receipt>)
    ensures ValidateAuthority(r, ctx.(receipts := receipts), Some(s)) == ValidateAuthority(r, ctx, Some(s))
  {
    hide CheckScope;
  }

  lemma PauseIgnoresReceipts(s: Snapshot, c: Command, ctx: Context, receipts: map<Str, Receipt>)
    requires c.request.payload.Pause?
    ensures Commit(Some(s), Input(c, ctx.(receipts := receipts))) == Commit(Some(s), Input(c, ctx))
  {
    hide Dispatch, ValidateCommand, ValidateAuthority, ValidateReferences, AfterCreate, Fits;
    AuthorityIgnoresReceipts(s, c.request, ctx, receipts);
    PauseDispatches(s, c.request, ctx);
    PauseDispatches(s, c.request, ctx.(receipts := receipts));
  }

  lemma PauseDispatches(s: Snapshot, r: Request, ctx: Context)
    requires r.payload.Pause?
    ensures Dispatch(s, r, ctx) == AfterPause(s, r.payload.reason, r.payload.wait)
  {
    hide AfterCreate, AfterObserve, AfterStage, AfterAcknowledge, AfterReview, AfterDecision, AfterAdvance, AfterPause,
         AfterResume, AfterRevise, AfterStop, AfterPrepare, AfterClose, AfterStrengthen;
  }

  lemma PauseCommits(receipt: Option<Str>, others: map<string, Str>, receipts: map<Str, Receipt>)
    requires Plain(others)
    ensures Commit(Some(Fresh([GOAL])), Input(PauseCommand(receipt, others), CtxWith(receipts))).Ok?
  {
    var s, c := Fresh([GOAL]), PauseCommand(receipt, others);
    hide Ctx, Commit, Few, Addressed;
    assert s.execution.state == Running;
    assert "later"[0] == 'l';
    var d := AfterPause(s, "later", None).value;
    assert Dispatch(s, c.request, Ctx(GOAL)) == Ok(d);
    FreshIsFew([GOAL], RESULT);
    PauseIsFew(s, d);
    PauseIsAddressed(receipt, others);
    CommitDispatched(s, c, d, [GOAL], RESULT);
    PauseIgnoresReceipts(s, c, Ctx(GOAL), receipts);
    assert CtxWith(receipts) == Ctx(GOAL).(receipts := receipts);
  }

  lemma PauseIsFew(s: Snapshot, d: Reduced)
    requires Few(s, [GOAL], RESULT) && AfterPause(s, "later", None) == Ok(d)
    ensures Few(d.snapshot, [GOAL], RESULT)
  {
    PauseDelta(s, "later", None, d);
    hide AfterPause, ChainFor;
  }

  lemma PauseIsAddressed(receipt: Option<Str>, others: map<string, Str>)
    requires Plain(others)
    ensures Addressed(Fresh([GOAL]), PauseCommand(receipt, others))
  {
    hide Fresh;
  }

  /** What the kernel commits, the store attempts. */
  lemma CommitIsAttempted(
    core: Core, wire: (Blobs, Attempt) -> Wire, sorted: set<Str> -> seq<Str>, s: Option<Snapshot>, i: Input)
    requires core == KernelCore(wire, sorted) && KernelAdmit(s, i.command).Pass?
    requires Commit(s, i).Ok? && RevisionNow(s) == i.command.request.expectedRevision
    ensures Attempted(core, s, i) == Commit(s, i)
  {
    hide Reduce, KernelAdmit, Fits;
  }

  /** The store over the kernel, with every payload materialising. */
  ghost predicate Willing(core: Core, wire: (Blobs, Attempt) -> Wire, sorted: set<Str> -> seq<Str>) {
    && core == KernelCore(wire, sorted) && Sorts(core) && Outbox.WiresGrow(core)
    && forall b, a :: wire(b, a).Materialised?
  }

  lemma CreateIsAdmitted()
    ensures KernelAdmit(None, CreateCommand([GOAL])).Pass? && CreateCommand([GOAL]).request.expectedRevision == 0
  {
    hide ChainFor;
  }

  lemma PauseIsAdmitted(receipt: Option<Str>, others: map<string, Str>)
    ensures KernelAdmit(Some(Fresh([GOAL])), PauseCommand(receipt, others)).Pass?
    ensures RevisionNow(Some(Fresh([GOAL]))) == PauseCommand(receipt, others).request.expectedRevision
  {
    hide ChainFor, ModeOf, StoredOf, InitialGoal, InitialPlan;
    FreshIsContent();
  }

  lemma CreateIsAttempted(core: Core, wire: (Blobs, Attempt) -> Wire, sorted: set<Str> -> seq<Str>)
    requires Willing(core, wire, sorted)
    ensures var t := Attempted(core, None, CREATION);
            t.Ok? && t.value.snapshot == Fresh([GOAL])
  {
    hide Commit, Attempted, Fresh, ChainFor, KernelAdmit, CreateCommand, KernelCore;
    CreateCommits([GOAL]);
    CreateIsAdmitted();
    CommitIsAttempted(core, wire, sorted, None, CREATION);
  }

  lemma PauseIsAttempted(
    core: Core, wire: (Blobs, Attempt) -> Wire, sorted: set<Str> -> seq<Str>, receipt: Option<Str>,
    others: map<string, Str>, receipts: map<Str, Receipt>)
    requires Willing(core, wire, sorted) && Plain(others)
    ensures Attempted(core, Some(Fresh([GOAL])), Input(PauseCommand(receipt, others), CtxWith(receipts))).Ok?
  {
    hide Commit, Attempted, KernelAdmit, KernelCore, Fresh, CtxWith;
    PauseCommits(receipt, others, receipts);
    PauseIsAdmitted(receipt, others);
    CommitIsAttempted(core, wire, sorted, Some(Fresh([GOAL])), Input(PauseCommand(receipt, others), CtxWith(receipts)));
  }

  lemma FreshIsContent()
    ensures ModeOf(Some(StoredOf(Fresh([GOAL])))) == ContentMode && Fresh([GOAL]).loopRevision == 1
  {
    hide Commit, ModeOf, StoredOf, ChainFor, InitialGoal, InitialPlan;
    CreateCommits([GOAL]);
    var i := Input(CreateCommand([GOAL]), Ctx(GOAL));
    CreateMode(i, Commit(None, i).value);
  }

  lemma WillingIsDisciplined(core: Core, wire: (Blobs, Attempt) -> Wire, sorted: set<Str> -> seq<Str>)
    requires Willing(core, wire, sorted)
    ensures Outbox.Disciplined(core) && Ref.NoConflict(core)
    ensures forall blobs, s :: OutboxRuns.Materialises(core, blobs, s)
  {
    KernelIsDisciplined(core, wire, sorted);
    KernelHasNoConflict(core, wire, sorted);
    hide Outbox.Disciplined, Ref.NoConflict;
  }

  lemma RunIsSound(core: Core, calls: seq<Ref.SqlCall>)
    requires Outbox.Disciplined(core) && Ref.NoConflict(core) && Sorts(core) && Outbox.WiresGrow(core)
    ensures Outbox.OutboxInv(core, Ref.SqlAfter(core, calls).db) && Ref.Ordered(Ref.SqlAfter(core, calls).db)
  {
    hide Outbox.Disciplined, Ref.NoConflict, Sorts, Outbox.WiresGrow, Outbox.OutboxInv, Ref.Ordered, Ref.SqlAfter,
         Ref.SoundBlobs, Ref.Abs;
    OutboxRuns.OutboxAlwaysAgrees(core, calls);
    Ref.RunRefines(core, calls);
  }

  lemma CreationFits()
    ensures OutboxRuns.ReceiptsFit(Sql.NO_TABLES, CREATION) && OutboxRuns.IdentityFits(Sql.NO_TABLES, CREATION)
    ensures Sql.ReceiptsNamed(CREATION.command.request) == {Text("confirm")}
    ensures CREATION.context.receipts[Text("confirm")] == Confirmation()
  {
    hide ChainFor;
    assert CREATION.command.request.others.Values == {};
  }

  lemma CreatedStore(core: Core, wire: (Blobs, Attempt) -> Wire, sorted: set<Str> -> seq<Str>)
    requires Willing(core, wire, sorted)
    ensures var (st, answer) := Sql.SqlApply(core, Sql.SqlState(Sql.NO_TABLES, None), CREATION, None);
            && st.txn.None? && Sql.SnapshotOf(st.db, LOOP) == Some(Fresh([GOAL]))
            && st.db.operations.Keys == {Key(CREATION)}
            && Text("confirm") in st.db.receipts && st.db.receipts[Text("confirm")].encoding == Confirmation().encoding
  {
    hide Attempted, Fresh, KernelCore, Sql.SqlApply, Outbox.OutboxInv, Ref.Ordered, Outbox.Disciplined, Ref.NoConflict,
         Sorts, Outbox.WiresGrow, OutboxRuns.ReceiptsFit, OutboxRuns.IdentityFits, OutboxRuns.Materialises,
         Sql.ReceiptsNamed;
    CreateIsAttempted(core, wire, sorted);
    WillingIsDisciplined(core, wire, sorted);
    CreationFits();
    RunIsSound(core, []);
    OpenTransactions.CorruptionStaysOpen(core, Sql.NO_TABLES, CREATION);
    assert OutboxRuns.ReceiptStored(Sql.SqlApply(core, Sql.SqlState(Sql.NO_TABLES, None), CREATION, None).0.db, CREATION,
                                    Text("confirm"));
  }

  lemma AfterOne(core: Core, call: Ref.SqlCall)
    ensures Ref.SqlAfter(core, []) == Sql.SqlState(Sql.NO_TABLES, None)
    ensures Ref.SqlAfter(core, [call]) == Ref.SqlCalled(core, Sql.SqlState(Sql.NO_TABLES, None), call)
  {
    hide Sql.SqlApply, Sql.SqlClaim, Sql.SqlPutBlob;
    assert [call][..0] == [];
    assert Ref.SqlAfter(core, [call][..0]) == Sql.SqlState(Sql.NO_TABLES, None);
  }

  /** What is wrong with a receipt named after the run's loop has been created: it is not registered for the loop, has no
      encoding, or is the confirmation and registered as another receipt than the one the store keeps. */
  function Misfit(ref: Str, receipts: map<Str, Receipt>): Sql.Trouble {
    if ref !in receipts || receipts[ref].loop != LOOP then Sql.Corruption
    else if receipts[ref].encoding.Unencoded? then Sql.Refusal
    else if ref == Text("confirm") && receipts[ref].encoding != Confirmation().encoding then Sql.Corruption
    else Sql.NoTrouble
  }

  /** The run that creates a loop and pauses it ends with nothing of the pause durable and its transaction open. */
  ghost predicate Stuck(core: Core, pause: Input, answer: Answer) {
    var calls := [Ref.Apply(CREATION, None), Ref.Apply(pause, None)];
    var before, after := Ref.SqlAfter(core, calls[..1]), Ref.SqlAfter(core, calls);
    && before.txn.None? && LOOP in before.db.loops && Text("confirm") in before.db.receipts
    && Sql.SqlApply(core, before, pause, None).1 == answer
    && after.txn.Some? && after.db == before.db
  }

  /** All receipts a pause names have the same trouble, but for the confirmation, which may have none. */
  predicate Misfits(receipt: Option<Str>, others: map<string, Str>, receipts: map<Str, Receipt>, trouble: Sql.Trouble) {
    var named := Sql.ReceiptsNamed(PauseCommand(receipt, others).request);
    && (forall r :: r in named ==> Misfit(r, receipts) == trouble
                                   || (r == Text("confirm") && Misfit(r, receipts) == Sql.NoTrouble))
    && (exists r :: r in named && Misfit(r, receipts) == trouble)
  }

  lemma MisfitIsStuck(
    core: Core, wire: (Blobs, Attempt) -> Wire, sorted: set<Str> -> seq<Str>, receipt: Option<Str>,
    others: map<string, Str>, receipts: map<Str, Receipt>, trouble: Sql.Trouble)
    requires Willing(core, wire, sorted) && Plain(others) && trouble in {Sql.Corruption, Sql.Refusal}
    requires Misfits(receipt, others, receipts, trouble)
    ensures Stuck(core, Input(PauseCommand(receipt, others), CtxWith(receipts)),
                  if trouble == Sql.Refusal then Escaped else Corrupt)
  {
    hide Sql.SqlApply, Attempted, Fresh, Outbox.OutboxInv, Ref.Ordered, Outbox.Disciplined, Sorts, KernelCore,
         Outbox.WiresGrow, Ref.NoConflict, OutboxRuns.ReceiptsFit, OutboxRuns.Materialises, Sql.ReceiptsNamed, Misfits,
         Ctx, Confirmation, CreateCommand, OutboxRuns.SyncTrouble;
    var pause := Input(PauseCommand(receipt, others), CtxWith(receipts));
    var calls := [Ref.Apply(CREATION, None), Ref.Apply(pause, None)];
    assert calls[..1] == [Ref.Apply(CREATION, None)] && [Ref.Apply(CREATION, None)][..0] == [];
    CreatedStore(core, wire, sorted);
    var before := Ref.SqlAfter(core, [Ref.Apply(CREATION, None)]);
    AfterOne(core, Ref.Apply(CREATION, None));
    PauseIsAttempted(core, wire, sorted, receipt, others, receipts);
    WillingIsDisciplined(core, wire, sorted);
    RunIsSound(core, [Ref.Apply(CREATION, None)]);
    var s := Attempted(core, Sql.SnapshotOf(before.db, LOOP), pause).value.snapshot;
    PauseTrouble(core, before.db, receipt, others, receipts, trouble, s);
    CreationKey(receipt, others, receipts);
    OpenTransactions.CorruptionStaysOpen(core, before.db, pause);
  }

  /** Receipts whose troubles are none or the same one end in it. */
  lemma {:induction false} UniformTrouble(t: Sql.Tables, c: Input, refs: seq<Str>, trouble: Sql.Trouble)
    requires forall ref :: ref in refs ==> OutboxRuns.ReceiptTrouble(t, c, ref) in {Sql.NoTrouble, trouble}
    requires exists ref :: ref in refs && OutboxRuns.ReceiptTrouble(t, c, ref) == trouble
    ensures OutboxRuns.ReceiptsTrouble(t, c, refs) == trouble
  {
    hide OutboxRuns.ReceiptTrouble;
    if OutboxRuns.ReceiptTrouble(t, c, refs[0]) != trouble {
      UniformTrouble(t, c, refs[1..], trouble);
    } else if trouble == Sql.NoTrouble {
      if refs[1..] != [] {
        assert refs[1] in refs && refs[1] in refs[1..];
        UniformTrouble(t, c, refs[1..], trouble);
      }
    }
  }

  lemma MisfitTrouble(db: Sql.Tables, pause: Input, receipts: map<Str, Receipt>, ref: Str)
    requires pause.context == CtxWith(receipts) && pause.command.request.loop == LOOP
    requires Text("confirm") in db.receipts && db.receipts[Text("confirm")].encoding == Confirmation().encoding
    requires ref == Text("confirm") || Misfit(ref, receipts) != Sql.NoTrouble
    ensures OutboxRuns.ReceiptTrouble(db, pause, ref) == Misfit(ref, receipts)
  {
    hide Ctx, Confirmation;
  }

  lemma PauseTrouble(
    core: Core, db: Sql.Tables, receipt: Option<Str>, others: map<string, Str>, receipts: map<Str, Receipt>,
    trouble: Sql.Trouble, s: Snapshot)
    requires Sorts(core) && OutboxRuns.Materialises(core, db.blobs, s) && trouble in {Sql.Corruption, Sql.Refusal}
    requires Misfits(receipt, others, receipts, trouble)
    requires Text("confirm") in db.receipts && db.receipts[Text("confirm")].encoding == Confirmation().encoding
    ensures OutboxRuns.SyncTrouble(core, db, Input(PauseCommand(receipt, others), CtxWith(receipts)), s) == trouble
  {
    hide Ctx, Confirmation, OutboxRuns.Materialises, OutboxRuns.PayloadsTrouble, OutboxRuns.ReceiptTrouble,
         OutboxRuns.ReceiptsTrouble, Misfit, Sql.ReceiptsNamed, CtxWith, NoRepeats, Sql.AttemptOrder;
    var pause := Input(PauseCommand(receipt, others), CtxWith(receipts));
    var named := Sql.ReceiptsNamed(pause.command.request);
    var refs := core.sorted(named);
    OutboxRuns.MaterialisesExactly(core, db.blobs, s);
    assert forall ref :: ref in refs <==> ref in named;
    forall ref | ref in refs ensures OutboxRuns.ReceiptTrouble(db, pause, ref) == Misfit(ref, receipts) {
      MisfitTrouble(db, pause, receipts, ref);
    }
    var r :| r in named && Misfit(r, receipts) == trouble;
    assert r in refs;
    UniformTrouble(db, pause, refs, trouble);
  }

  lemma CreationKey(receipt: Option<Str>, others: map<string, Str>, receipts: map<Str, Receipt>)
    ensures Key(CREATION) != Key(Input(PauseCommand(receipt, others), CtxWith(receipts)))
    ensures CREATION.command.request.loop == LOOP
  {
    hide ChainFor;
  }

  const UNREGISTERED := Text("unregistered")

  lemma RunReceipts()
    ensures CtxWith(Ctx(GOAL).receipts) == Ctx(GOAL) && UNREGISTERED !in Ctx(GOAL).receipts
    ensures Text("confirm") in Ctx(GOAL).receipts && Ctx(GOAL).receipts[Text("confirm")] == Confirmation()
  {
    hide ChainFor;
  }

  lemma OneMisfit(ref: Str, receipts: map<Str, Receipt>)
    ensures Misfits(Some(ref), map[], receipts, Misfit(ref, receipts))
  {
    hide Misfit;
    var named := Sql.ReceiptsNamed(PauseCommand(Some(ref), map[]).request);
    assert ref in named;
  }

  /** After creating a loop, a pause that names an unregistered receipt is reported as corruption: nothing of it is
      durable, and its transaction stays open. */
  lemma UnknownReceiptStaysOpen(core: Core, wire: (Blobs, Attempt) -> Wire, sorted: set<Str> -> seq<Str>)
    requires Willing(core, wire, sorted)
    ensures Stuck(core, Input(PauseCommand(Some(UNREGISTERED), map[]), Ctx(GOAL)), Corrupt)
  {
    hide Stuck, Misfits, Ctx, ChainFor;
    RunReceipts();
    OneMisfit(UNREGISTERED, Ctx(GOAL).receipts);
    MisfitIsStuck(core, wire, sorted, Some(UNREGISTERED), map[], Ctx(GOAL).receipts, Sql.Corruption);
  }

  const AUDIT: map<string, Str> := map["audit" := UNREGISTERED]

  lemma AuditMisfits()
    ensures Misfits(Some(Text("confirm")), AUDIT, Ctx(GOAL).receipts, Sql.Corruption) && Plain(AUDIT)
  {
    RunReceipts();
    hide Ctx;
    var named := Sql.ReceiptsNamed(PauseCommand(Some(Text("confirm")), AUDIT).request);
    assert AUDIT["audit"] in AUDIT.Values;
    assert UNREGISTERED in named && Misfit(UNREGISTERED, Ctx(GOAL).receipts) == Sql.Corruption;
    assert forall r :: r in named ==> r in {Text("confirm"), UNREGISTERED};
  }

  /** So does one whose only unregistered receipt stands under a name that no reducer reads. */
  lemma SecondReceiptStaysOpen(core: Core, wire: (Blobs, Attempt) -> Wire, sorted: set<Str> -> seq<Str>)
    requires Willing(core, wire, sorted)
    ensures Stuck(core, Input(PauseCommand(Some(Text("confirm")), AUDIT), Ctx(GOAL)), Corrupt)
  {
    hide Stuck, Misfits, Ctx, ChainFor;
    RunReceipts();
    AuditMisfits();
    MisfitIsStuck(core, wire, sorted, Some(Text("confirm")), AUDIT, Ctx(GOAL).receipts, Sql.Corruption);
  }

  /** The start confirmation, issued again with a later expiry under its old reference. */
  function Reissued(): Receipt { Confirmation().(expires := 1, encoding := Encoded("confirm until 1")) }

  /** And so does one that names a registered receipt of its loop, once the registry has another one under the reference
      than the store keeps. */
  lemma ReissuedReceiptStaysOpen(core: Core, wire: (Blobs, Attempt) -> Wire, sorted: set<Str> -> seq<Str>)
    requires Willing(core, wire, sorted)
    ensures Sql.Knows(CtxWith(map[Text("confirm") := Reissued()]), LOOP, Text("confirm"))
    ensures Stuck(core, Input(PauseCommand(Some(Text("confirm")), map[]), CtxWith(map[Text("confirm") := Reissued()])),
                  Corrupt)
  {
    hide Stuck, Misfits, Ctx;
    var receipts := map[Text("confirm") := Reissued()];
    assert |Reissued().encoding.text| != |Confirmation().encoding.text|;
    OneMisfit(Text("confirm"), receipts);
    MisfitIsStuck(core, wire, sorted, Some(Text("confirm")), map[], receipts, Sql.Corruption);
  }

  /** The start confirmation with a text that canonical encoding refuses. */
  function Oversized(): Receipt { Confirmation().(encoding := Unencoded(TooLarge)) }

  /** A receipt without encoding, which the reducer of a pause does not notice, ends in an error that nothing catches, and
      leaves the transaction open as well. */
  lemma OversizedReceiptStaysOpen(core: Core, wire: (Blobs, Attempt) -> Wire, sorted: set<Str> -> seq<Str>)
    requires Willing(core, wire, sorted)
    ensures Sql.Knows(CtxWith(map[Text("confirm") := Oversized()]), LOOP, Text("confirm"))
    ensures Stuck(core, Input(PauseCommand(Some(Text("confirm")), map[]), CtxWith(map[Text("confirm") := Oversized()])),
                  Escaped)
  {
    hide Stuck, Misfits, Ctx;
    var receipts := map[Text("confirm") := Oversized()];
    OneMisfit(Text("confirm"), receipts);
    MisfitIsStuck(core, wire, sorted, Some(Text("confirm")), map[], receipts, Sql.Refusal);
  }

  // A registry that cannot be read back ------------------------------------------------------------------------

  const STRANGER := Text("stranger")

  /** The registry of the run with one more actor of the loop, whose issuer nobody trusts. */
  function Crowded(): Context {
    Ctx(GOAL).(actors := Ctx(GOAL).actors[STRANGER := Actor(STRANGER, LOOP, Text("nobody"), TRUSTED, Encoded("stranger"))])
  }

  const CROWDED := Input(CreateCommand([GOAL]), Crowded())

  lemma AuthorityIgnoresStrangers(r: Request, ctx: Context, stranger: Actor)
    requires r.actor != STRANGER && STRANGER !in ctx.actors
    requires r.grant in ctx.grants ==> ctx.grants[r.grant].issuer != STRANGER
    ensures ValidateAuthority(r, ctx.(actors := ctx.actors[STRANGER := stranger]), None) == ValidateAuthority(r, ctx, None)
  {
    hide CheckScope;
  }

  lemma CreateIgnoresActors(r: Request, ctx: Context, actors: map<Str, Actor>, c: Startup)
    ensures AfterCreate(None, r, ctx.(actors := actors), c) == AfterCreate(None, r, ctx, c)
  {
    assert StartupReceipt(r, ctx.(actors := actors)) == StartupReceipt(r, ctx);
    hide StartupReceipt, ValidPlanIdentity, ValidObjective, AllocatesChain, Is64;
  }

  lemma CrowdedCommits()
    ensures Commit(None, CROWDED) == Commit(None, CREATION)
  {
    var c, ctx := CreateCommand([GOAL]), Ctx(GOAL);
    CrowdedCreates();
    StrangerIsNobody();
    hide Ctx, CreateCommand;
    StrangersDoNotCount(c, ctx, Actor(STRANGER, LOOP, Text("nobody"), TRUSTED, Encoded("stranger")));
  }

  lemma StrangerIsNobody()
    ensures var r, ctx := CreateCommand([GOAL]).request, Ctx(GOAL);
            r.actor != STRANGER && STRANGER !in ctx.actors && r.grant in ctx.grants && ctx.grants[r.grant].issuer != STRANGER
  {
    hide ChainFor;
    assert |ACTOR.text| != |STRANGER.text|;
  }

  lemma StrangersDoNotCount(c: Command, ctx: Context, stranger: Actor)
    requires c.request.payload.Create? && c.request.actor != STRANGER && STRANGER !in ctx.actors
    requires c.request.grant in ctx.grants && ctx.grants[c.request.grant].issuer != STRANGER
    ensures Commit(None, Input(c, ctx.(actors := ctx.actors[STRANGER := stranger]))) == Commit(None, Input(c, ctx))
  {
    hide ValidateAuthority, ValidateReferences, ValidateCommand, AfterCreate, Fits, Dispatch;
    AuthorityIgnoresStrangers(c.request, ctx, stranger);
    CreateIgnoresActors(c.request, ctx, ctx.actors[STRANGER := stranger], c.request.payload.startup);
  }

  lemma EmptyIsSound()
    ensures Reload.AuthoritySound(Sql.NO_TABLES, Reload.VouchedBy)
  {
    hide Reload.VouchedBy;
  }

  lemma NobodyIsVouchedFor()
    ensures !Reload.VouchedBy(Reload.RootsAfter(Sql.NO_TABLES, CROWDED), Issuer(ActorTrust, Text("nobody")), TRUSTED)
  {
    hide ChainFor;
    var roots := Crowded().roots;
    assert forall i :: i in roots ==>
             i in {Issuer(ActorTrust, ISSUER), Issuer(GrantTrust, ACTOR), Issuer(ReceiptTrust, ISSUER)};
  }

  lemma CrowdedIsUnsound()
    ensures !Reload.RegistrySound(Sql.NO_TABLES, CROWDED, Reload.VouchedBy)
  {
    NobodyIsVouchedFor();
    CrowdedCreates();
    hide Reload.VouchedBy, Ctx, CreateCommand, Sql.GrantsOf, Sql.ReceiptsNamed, Reload.RootsAfter, Reload.GrantsSound,
         Reload.StoredTrusted, Reload.ReceiptSound;
    var actors := Sql.ActorsOf(Crowded(), LOOP);
    assert STRANGER in actors && actors[STRANGER].issuer == Text("nobody");
  }

  lemma CrowdedCreates()
    ensures CROWDED.command.request.payload.Create? && CROWDED.command.request.loop == LOOP
    ensures CROWDED.command.unencodable.None?
  {
    hide ChainFor;
  }

  lemma CrowdedFits()
    ensures OutboxRuns.ReceiptsFit(Sql.NO_TABLES, CROWDED) && OutboxRuns.IdentityFits(Sql.NO_TABLES, CROWDED)
  {
    CreationFits();
    assert CROWDED.context.receipts == CREATION.context.receipts;
    hide Ctx, CreateCommand, Sql.ReceiptsNamed, Sql.ActorsOf, Sql.GrantsOf;
    assert forall ref :: OutboxRuns.ReceiptFits(Sql.NO_TABLES, CROWDED, ref) <==>
                           OutboxRuns.ReceiptFits(Sql.NO_TABLES, CREATION, ref);
  }

  /** The kernel does not look at a third actor in the registry, the store keeps it with the loop it creates, and then the
      integrity check raises and the authority tables cannot be read back. */
  lemma StrangerBreaksIntegrity(core: Core, wire: (Blobs, Attempt) -> Wire, sorted: set<Str> -> seq<Str>)
    requires Willing(core, wire, sorted)
    ensures var (st, answer) := Sql.SqlApply(core, Sql.SqlState(Sql.NO_TABLES, None), CROWDED, None);
            answer.Accepted? && OutboxRuns.Verified(core, st.db) && !Reload.Reloads(st.db)
  {
    hide Attempted, Fresh, KernelCore, Sql.SqlApply, Outbox.OutboxInv, Ref.Ordered, Outbox.Disciplined, Ref.NoConflict,
         Sorts, Outbox.WiresGrow, OutboxRuns.ReceiptsFit, OutboxRuns.IdentityFits, OutboxRuns.Materialises,
         Sql.ReceiptsNamed, Lin.Counts, Reload.AuthoritySound, Reload.RegistrySound, OutboxRuns.Verified, Commit,
         KernelAdmit, CreateCommand, Crowded, Reload.Reloads;
    CreateCommits([GOAL]);
    CreateIsAdmitted();
    CrowdedCommits();
    CommitIsAttempted(core, wire, sorted, None, CROWDED);
    WillingIsDisciplined(core, wire, sorted);
    KernelCounts(core, wire, sorted);
    CrowdedIsUnsound();
    CrowdedCreates();
    CrowdedFits();
    EmptyIsSound();
    RunIsSound(core, []);
    OpenTransactions.CorruptionStaysOpen(core, Sql.NO_TABLES, CROWDED);
    var st := Sql.SqlApply(core, Sql.SqlState(Sql.NO_TABLES, None), CROWDED, None).0;
    AfterOne(core, Ref.Apply(CROWDED, None));
    OutboxRuns.AlwaysVerified(core, [Ref.Apply(CROWDED, None)]);
    Reload.CallReloads(core, Sql.SqlState(Sql.NO_TABLES, None), Ref.Apply(CROWDED, None), Reload.VouchedBy);
    assert LOOP in st.db.loops && LOOP !in Sql.NO_TABLES.loops;
    Reload.ReloadsExactly(st.db);
  }
}
