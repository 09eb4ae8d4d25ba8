/** What a store driven by the kernel accepts, after whatever its tables have been through. */
module KernelAnswers {
  import opened Base
  import opened Records
  import opened Commands
  import Authority
  import opened Kernel
  import opened Permissions
  import opened PlanProgress
  import opened Invariant
  import opened Runs
  import opened StorageMode
  import opened StoreModel
  import opened Closing
  import opened Acceptance
  import opened SqliteStore
  import opened CrashRefinement
  import opened Refinement
  import opened Outbox
  import opened OutboxRuns
  import Outcomes
  import opened KernelStore

  lemma DecidesByCommit(core: Core, wire: (Blobs, Attempt) -> Wire, sorted: set<Str> -> seq<Str>, s: Option<Snapshot>, c: Input)
    requires core == KernelCore(wire, sorted)
    ensures Outcomes.Decision(core, s, c).Accepted?
            <==> && (s.Some? ==> ModeOf(Some(StoredOf(s.value))) == ContentMode) && ValidateCommand(c.command).Pass?
                 && (if s.Some? then s.value.loopRevision else 0) == c.command.request.expectedRevision
                 && Runs.Commit(s, c).Ok?
  {
    hide Reduce, ModeOf, StoredOf, ValidateCommand, Fits;
  }

  lemma CommitIsGenuine(s: Option<Snapshot>, c: Input)
    requires Runs.Commit(s, c).Ok?
    ensures ValidateCommand(c.command).Pass?
  {
    hide ValidateCommand, Authority.ValidateAuthority, Authority.ValidateReferences, Dispatch, AfterCreate, Fits;
  }

  /** What a stored loop is known to be. */
  lemma StoredIsIntact(core: Core, calls: seq<SqlCall>, loop: Str)
    requires Disciplined(core) && Sorts(core) && WiresGrow(core) && loop in SqlAfter(core, calls).db.loops
    ensures SnapshotPlanInv(SqlAfter(core, calls).db.loops[loop].snapshot)
  {
    hide SqlAfter, OutboxInv, Disciplined, Sorts, WiresGrow, SnapshotPlanInv, Inv;
    OutboxAlwaysAgrees(core, calls);
    var t := SqlAfter(core, calls).db;
    LoopOf(core, t, loop);
    hide OutboxAgrees, Described;
    PlanOfInv(t.loops[loop].snapshot);
  }

  /** What a command has to meet to be accepted by a store that has the loop as this snapshot, or does not have it. */
  ghost predicate Meets(s: Option<Snapshot>, c: Input)
    requires s.Some? ==> |s.value.plan.ids| == |s.value.plan.slices|
  {
    var r := c.command.request;
    && Genuine(c.command) && Permitted(r, c.context, s) && Referenced(s, r)
    && match s
       case None => r.payload.Create? && MayCreate(r, c.context, r.payload.startup)
       case Some(loop) =>
         && ModeOf(Some(StoredOf(loop))) == ContentMode && loop.loopRevision == r.expectedRevision
         && Acceptance.Accepts(loop, r, c.context) && Encodable(Dispatch(loop, r, c.context))
  }

  lemma MeetsExactly(core: Core, wire: (Blobs, Attempt) -> Wire, sorted: set<Str> -> seq<Str>, s: Option<Snapshot>, c: Input)
    requires core == KernelCore(wire, sorted) && (s.Some? ==> SnapshotPlanInv(s.value))
    ensures s.Some? ==> |s.value.plan.ids| == |s.value.plan.slices|
    ensures Outcomes.Decision(core, s, c).Accepted? <==> Meets(s, c)
  {
    hide Outcomes.Decision, KernelCore, Runs.Commit, Permitted, Referenced, MayCreate, Acceptance.Accepts, Encodable,
         SnapshotPlanInv, ModeOf, StoredOf;
    DecidesByCommit(core, wire, sorted, s, c);
    if Runs.Commit(s, c).Ok? { CommitIsGenuine(s, c); }
    match s
    case None =>
      FirstCommitExactly(c);
      CreatesAtZero(c);
    case Some(loop) =>
      ShapeOf(loop);
      CommitsExactly(loop, c);
  }

  lemma CreatesAtZero(c: Input)
    ensures c.command.request.payload.Create?
            && MayCreate(c.command.request, c.context, c.command.request.payload.startup) ==>
              c.command.request.expectedRevision == 0
  {
    hide StatesObjective, StatesPlan, AllocatesFirst, ConfirmsStart, BaselineIsWhole;
  }

  /** A free connection, a command with a digest, and an operation id that has no outcome yet. */
  predicate IsNew(st: SqlState, c: Input) {
    st.txn.None? && c.command.unencodable.None? && Key(c) !in st.db.operations
  }

  /** The answer, unless synchronising the derived tables fails, is acceptance exactly of what meets the demands. */
  ghost predicate AnswersExactly(core: Core, st: SqlState, c: Input) {
    var answer, s := SqlApply(core, st, c, None).1, SnapshotOf(st.db, c.command.request.loop);
    && (s.Some? ==> |s.value.plan.ids| == |s.value.plan.slices|)
    && (answer !in {Corrupt, Escaped} ==> (answer.Accepted? <==> Meets(s, c)))
  }

  /** After any run of the SQLite store over the kernel, with crashes, claims, reopenings and registries that come and go: on
      a free connection a new operation whose synchronisation does not fail is accepted exactly if it meets what the stored
      loop demands of it. */
  lemma StoreAcceptsExactly(
    core: Core, wire: (Blobs, Attempt) -> Wire, sorted: set<Str> -> seq<Str>, calls: seq<SqlCall>, c: Input)
    requires core == KernelCore(wire, sorted) && Sorts(core) && WiresGrow(core) && IsNew(SqlAfter(core, calls), c)
    ensures AnswersExactly(core, SqlAfter(core, calls), c)
  {
    hide SqlAfter, SqlApply, KernelCore, Sorts, WiresGrow, Disciplined, NoConflict, Outcomes.Decision, Meets, Ordered,
         SnapshotPlanInv;
    var st := SqlAfter(core, calls);
    KernelHasNoConflict(core, wire, sorted);
    KernelIsDisciplined(core, wire, sorted);
    RunRefines(core, calls);
    assert st == SqlState(st.db, None);
    if c.command.request.loop in st.db.loops { StoredIsIntact(core, calls, c.command.request.loop); }
    MeetsExactly(core, wire, sorted, SnapshotOf(st.db, c.command.request.loop), c);
    if SqlApply(core, st, c, None).1 !in {Corrupt, Escaped} { Outcomes.SqlDecides(core, st.db, c); }
  }
}
