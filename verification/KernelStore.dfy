/** Both stores driven by the kernel: its reducer meets everything the store theorems ask for. */
module KernelStore {
  import opened Base
  import opened Records
  import opened Commands
  import opened Authority
  import opened Kernel
  import opened Transitions
  import opened PlanProgress
  import opened EffectCoupling
  import opened ResultBinding
  import opened ClosureBacking
  import opened Invariant
  import opened Runs
  import opened Safety
  import opened StorageMode
  import opened StoreModel
  import opened Outbox
  import Lin = Linearisation
  import Ref = Refinement
  import OutboxRuns
  import Reload = AuthorityReload
  import Sql = SqliteStore

  /** Classification and validation, for a snapshot on the content route. */
  function KernelAdmit(s: Option<Snapshot>, c: Command): Check {
    if s.Some? && ModeOf(Some(StoredOf(s.value))) != ContentMode then Check.Stop(Rejected(InternalInvariantViolation))
    else ValidateCommand(c)
  }

  function KernelCore(wire: (Blobs, Attempt) -> Wire, sorted: set<Str> -> seq<Str>): Core {
    Core(KernelAdmit, (s, i: Input) => Reduce(s, i.command, i.context), s => Need(Fits(s), ResourceLimitExceeded), wire,
         sorted)
  }

  // Revisions and digests --------------------------------------------------------------------------------------

  lemma ReduceCounts(s: Option<Snapshot>, c: Command, ctx: Context)
    requires Reduce(s, c, ctx).Ok?
    ensures c.sealed && Reduce(s, c, ctx).value.snapshot.loopRevision == c.request.expectedRevision + 1
  {
    hide Dispatch, ValidateAuthority, ValidateReferences, AfterCreate;
  }

  /** The kernel accepts only sealed commands and steps the loop revision by one. */
  lemma KernelCounts(core: Core, wire: (Blobs, Attempt) -> Wire, sorted: set<Str> -> seq<Str>)
    requires core == KernelCore(wire, sorted)
    ensures Lin.Counts(core)
  {
    hide Reduce, KernelAdmit;
    forall s, i: Input | core.reduce(s, i).Ok?
      ensures i.command.sealed
              && core.reduce(s, i).value.snapshot.loopRevision == i.command.request.expectedRevision + 1
    {
      ReduceCounts(s, i.command, i.context);
    }
  }

  // No reducer raises the stores' own conflict -----------------------------------------------------------------

  predicate Conflicts<T>(r: Result<T>) { r.Err? && r.failure == Rejected(IdempotencyConflict) }

  predicate Clashes(c: Check) { c.Stop? && c.failure == Rejected(IdempotencyConflict) }

  lemma ChecksNeverClash(s: Option<Snapshot>, c: Command, ctx: Context)
    ensures !Clashes(ValidateCommand(c)) && !Clashes(ValidateAuthority(c.request, ctx, s))
    ensures !Clashes(ValidateReferences(s, c.request))
  {
    if s.Some? { RevisionsNeverClash(s.value, c.request.expectedSubjects); }
    hide CheckRevisions, BindingsKnown, InCollection, PlannedSubjects, RepairSubjects;
  }

  lemma {:induction false} RevisionsNeverClash(s: Snapshot, expected: seq<(Subject, nat)>)
    ensures !Clashes(CheckRevisions(s, expected))
  {
    if expected != [] { RevisionsNeverClash(s, expected[1..]); }
    hide RevisionOf;
  }

  lemma ReceiptNeverClashes(r: Request, ctx: Context, about: About)
    ensures !Conflicts(ReceiptFor(r, ctx, about))
  {
  }

  lemma CreateNeverClashes(s: Option<Snapshot>, r: Request, ctx: Context, c: Startup)
    ensures !Conflicts(AfterCreate(s, r, ctx, c))
  {
    hide StartupReceipt, StartupBaseline, ValidPlanIdentity, ValidObjective, AllocatesChain, Is64, GoalChain, InitialGoal,
         InitialPlan, NewEffectRecord, NewAttemptRecord;
    StartupNeverClashes(r, ctx);
  }

  lemma StartupNeverClashes(r: Request, ctx: Context)
    ensures !Conflicts(StartupReceipt(r, ctx)) && !Conflicts(StartupBaseline(r))
  {
    hide ReceiptFor;
    forall about ensures !Conflicts(ReceiptFor(r, ctx, about)) { ReceiptNeverClashes(r, ctx, about); }
  }

  lemma ObserveNeverClashes(s: Snapshot, r: Request, ctx: Context)
    ensures !Conflicts(AfterObserve(s, r, ctx))
  {
    forall about ensures !Conflicts(ReceiptFor(r, ctx, about)) { ReceiptNeverClashes(r, ctx, about); }
    hide ReceiptFor;
  }

  lemma StageNeverClashes(s: Snapshot, r: Request, outcome: Outcome, summary: string)
    ensures !Conflicts(AfterStage(s, r, outcome, summary))
  {
    hide Blank, IsHex64, ActiveGoals;
  }

  lemma AcknowledgeNeverClashes(s: Snapshot, r: Request, ctx: Context)
    ensures !Conflicts(AfterAcknowledge(s, r, ctx))
  {
    forall about ensures !Conflicts(ReceiptFor(r, ctx, about)) { ReceiptNeverClashes(r, ctx, about); }
    hide ReceiptFor;
  }

  lemma ChainNeverClashes(s: Snapshot)
    ensures !Conflicts(ResultChain(s)) && !Conflicts(FinalChain(s))
  {
    hide ReviewsOf;
  }

  lemma ReviewNeverClashes(s: Snapshot, r: Request, verdict: Verdict)
    ensures !Conflicts(AfterReview(s, r, verdict))
  {
    ChainNeverClashes(s);
    hide ResultChain, FinalChain;
  }

  lemma NextNeverClashes(s: Snapshot, r: Request, from: Str, to: GoalState)
    requires 0 <= s.plan.activeIndex && s.plan.activeIndex + 1 < |s.plan.ids| == |s.plan.slices|
    ensures !Conflicts(NextGoal(s, r, from, to))
  {
    hide DescribesNext, MaterializesNext;
  }

  lemma AdvanceNeverClashes(s: Snapshot, r: Request, to: GoalState)
    ensures !Conflicts(AfterAdvance(s, r, to))
  {
    forall u: Snapshot, from | 0 <= u.plan.activeIndex && u.plan.activeIndex + 1 < |u.plan.ids| == |u.plan.slices|
      ensures !Conflicts(NextGoal(u, r, from, to))
    {
      NextNeverClashes(u, r, from, to);
    }
    hide NextGoal, MayAdvance;
  }

  lemma RepairNeverClashes(s: Snapshot, r: Request, goalRef: Str, policy: Policy, card: Str, failure: Str)
    requires goalRef in s.goals
    ensures !Conflicts(AfterAuthorizedRepair(s, r, goalRef, policy, card, failure))
  {
    hide RepairAllocation, MaterializesRepair, RecordRepair;
  }

  lemma DecisionNeverClashes(s: Snapshot, r: Request, ctx: Context, d: Decision, fingerprint: string)
    ensures !Conflicts(AfterDecision(s, r, ctx, d, fingerprint))
  {
    forall goalRef, policy, card, failure | goalRef in s.goals
      ensures !Conflicts(AfterAuthorizedRepair(s, r, goalRef, policy, card, failure))
    {
      RepairNeverClashes(s, r, goalRef, policy, card, failure);
    }
    hide AfterAuthorizedRepair, RepairWanted, PolicyContextOf, RecordRepair, CountersFor, SameFailures;
  }

  lemma LifecycleNeverClashes(s: Snapshot, reason: string, wait: Option<WaitKind>, fields: ResumeFields)
    ensures !Conflicts(AfterPause(s, reason, wait)) && !Conflicts(AfterResume(s, fields)) && !Conflicts(AfterStop(s, reason))
  {
    hide Blank, IsHex64, ValidExtension, ActiveGoals;
  }

  lemma ReviseNeverClashes(s: Snapshot, ids: seq<Str>, slices: seq<Str>, index: Str, revision: int, reason: string)
    ensures !Conflicts(AfterRevise(s, ids, slices, index, revision, reason))
  {
    hide ValidRevision;
  }

  lemma FinalNeverClashes(s: Snapshot, r: Request, ctx: Context, d: Disposition)
    ensures !Conflicts(AfterPrepare(s, r, d)) && !Conflicts(AfterClose(s, r, ctx)) && !Conflicts(AfterStrengthen(s, r, ctx))
  {
    hide AfterPrepare, AfterClose, AfterStrengthen;
    PrepareNeverClashes(s, r, d);
    CloseNeverClashes(s, r, ctx);
    StrengthenNeverClashes(s, r, ctx);
  }

  lemma PrepareNeverClashes(s: Snapshot, r: Request, d: Disposition)
    ensures !Conflicts(AfterPrepare(s, r, d))
  {
    hide ResultChain, FinalChain;
    ChainNeverClashes(s);
  }

  lemma CloseNeverClashes(s: Snapshot, r: Request, ctx: Context)
    ensures !Conflicts(AfterClose(s, r, ctx))
  {
    hide FinalChain, ReceiptFor;
    ChainNeverClashes(s);
    if r.subject in s.finalizations {
      var f := s.finalizations[r.subject];
      ReceiptNeverClashes(r, ctx, About(LIFECYCLE_READBACK, r.subject, None, None, Some(f.chainDigest)));
      assert !Conflicts(ClosingEvidence(s, r, ctx, f));
      hide ClosingEvidence;
    }
  }

  lemma StrengthenNeverClashes(s: Snapshot, r: Request, ctx: Context)
    ensures !Conflicts(AfterStrengthen(s, r, ctx))
  {
    hide ReceiptFor;
    if r.subject in s.finalizations {
      ReceiptNeverClashes(r, ctx, About(LIFECYCLE_READBACK, r.subject, None, None,
                                        Some(s.finalizations[r.subject].chainDigest)));
    }
  }

  lemma DispatchNeverClashes(s: Snapshot, r: Request, ctx: Context)
    ensures !Conflicts(Dispatch(s, r, ctx))
  {
    hide AfterCreate, AfterObserve, AfterStage, AfterAcknowledge, AfterReview, AfterDecision, AfterAdvance, AfterPause,
         AfterResume, AfterRevise, AfterStop, AfterPrepare, AfterClose, AfterStrengthen;
    match r.payload
    case Create(c) => CreateNeverClashes(Some(s), r, ctx, c);
    case Observe => ObserveNeverClashes(s, r, ctx);
    case Stage(outcome, summary) => StageNeverClashes(s, r, outcome, summary);
    case Acknowledge => AcknowledgeNeverClashes(s, r, ctx);
    case Judge(verdict) => ReviewNeverClashes(s, r, verdict);
    case Decide(d, fingerprint) => DecisionNeverClashes(s, r, ctx, d, fingerprint);
    case Advance(to) => AdvanceNeverClashes(s, r, to);
    case Pause(reason, wait) => LifecycleNeverClashes(s, reason, wait, NoFields);
    case Resume(fields) => LifecycleNeverClashes(s, "", None, fields);
    case Revise(ids, slices, index, revision, reason) => ReviseNeverClashes(s, ids, slices, index, revision, reason);
    case StopNow(reason) => LifecycleNeverClashes(s, reason, None, NoFields);
    case Prepare(d) => FinalNeverClashes(s, r, ctx, d);
    case Close => FinalNeverClashes(s, r, ctx, Stopped);
    case Strengthen => FinalNeverClashes(s, r, ctx, Stopped);
  }

  lemma ReduceNeverClashes(s: Option<Snapshot>, c: Command, ctx: Context)
    ensures !Conflicts(Reduce(s, c, ctx))
  {
    hide Dispatch, ValidateCommand, ValidateAuthority, ValidateReferences, AfterCreate;
    ChecksNeverClash(s, c, ctx);
    if s.Some? {
      DispatchNeverClashes(s.value, c.request, ctx);
    } else if c.request.payload.Create? {
      CreateNeverClashes(None, c.request, ctx, c.request.payload.startup);
    }
  }

  lemma KernelHasNoConflict(core: Core, wire: (Blobs, Attempt) -> Wire, sorted: set<Str> -> seq<Str>)
    requires core == KernelCore(wire, sorted)
    ensures Ref.NoConflict(core)
  {
    forall s, i: Input
      ensures core.admit(s, i.command) != Check.Stop(Rejected(IdempotencyConflict))
              && core.reduce(s, i) != Err(Rejected(IdempotencyConflict))
    {
      ReduceNeverClashes(s, i.command, i.context);
      ChecksNeverClash(s, i.command, i.context);
    }
    hide Reduce, ModeOf, StoredOf, ValidateCommand, Fits;
  }

  // The kernel's discipline ------------------------------------------------------------------------------------

  lemma AttemptedIsCommit(core: Core, wire: (Blobs, Attempt) -> Wire, sorted: set<Str> -> seq<Str>,
                          s: Option<Snapshot>, i: Input)
    requires core == KernelCore(wire, sorted) && Attempted(core, s, i).Ok?
    ensures Commit(s, i) == Attempted(core, s, i)
  {
    hide Reduce, KernelAdmit, Fits;
  }

  lemma AuthorityNames(r: Request, ctx: Context, s: Option<Snapshot>)
    requires ValidateAuthority(r, ctx, s).Pass?
    ensures r.actor in Sql.ActorsOf(ctx, r.loop) && r.grant in Sql.GrantsOf(ctx, r.loop)
  {
    hide CheckScope;
  }

  lemma CommitIsAuthorised(s: Option<Snapshot>, i: Input)
    requires Commit(s, i).Ok?
    ensures ValidateAuthority(i.command.request, i.context, s).Pass?
    ensures s.None? <==> i.command.request.payload.Create?
    ensures ValidateReferences(s, i.command.request).Pass?
  {
    hide ValidateCommand, ValidateAuthority, ValidateReferences, Fits, AfterObserve, AfterStage, AfterAcknowledge,
         AfterReview, AfterDecision, AfterAdvance, AfterPause, AfterResume, AfterRevise, AfterStop, AfterPrepare, AfterClose,
         AfterStrengthen, AfterCreate;
    if s.Some? && i.command.request.payload.Create? {
      CreateRefused(s.value, i.command.request, i.context, i.command.request.payload.startup);
    }
  }

  lemma CreateKnowsGoal(i: Input, t: Reduced)
    requires Commit(None, i) == Ok(t)
    ensures i.command.request.payload.Create?
    ensures KnowsGoal(t.snapshot, Digest(ObjectiveText(i.command.request.payload.startup.objective)))
  {
    var r := i.command.request;
    var d := FirstCommit(i, t);
    CreateDelta(r, i.context, r.payload.startup, d);
    hide Commit, AfterCreate, ValidPlanIdentity, FreshPair, ValidateReferences;
    var goalRef := GoalChain(r.loop, r.payload.startup.planDigest, r.payload.startup.goalId, r.payload.startup.slice).goalRef;
    assert goalRef in t.snapshot.goals;
  }

  lemma CreateContinues(i: Input, t: Reduced)
    requires Commit(None, i) == Ok(t)
    ensures Continues(None, i, t.snapshot)
  {
    hide Commit, Inv, KnowsGoal, AfterCreate, ValidateAuthority, ValidateReferences;
    CommitCreates(i, t);
    CommitIsAuthorised(None, i);
    AuthorityNames(i.command.request, i.context, None);
    CreateKnowsGoal(i, t);
  }

  lemma ForwardsContinue(s: Snapshot, t: Reduced)
    requires Forwards(s, t)
    ensures AttemptsContinue(s, t.snapshot) && t.snapshot.loopRef == s.loopRef
    ensures forall d :: KnowsGoal(s, d) ==> KnowsGoal(t.snapshot, d)
  {
    hide EffectMoves, PlanKept, BudgetForwards, AttemptsConserved, RepairsCounted;
    forall d | KnowsGoal(s, d) ensures KnowsGoal(t.snapshot, d) {
      var g :| g in s.goals && s.goals[g].objectiveDigest == d;
      assert g in t.snapshot.goals;
    }
  }

  lemma CommitContinues(s: Snapshot, i: Input, t: Reduced)
    requires Inv(s) && s.loopRef == i.command.request.loop && Commit(Some(s), i) == Ok(t)
    ensures Continues(Some(s), i, t.snapshot)
  {
    hide Commit, Inv, KnowsGoal, Forwards, ValidateAuthority, ValidateReferences, AttemptsContinue;
    CommitForwards(s, i, t);
    CommitIsAuthorised(Some(s), i);
    AuthorityNames(i.command.request, i.context, Some(s));
    ForwardsContinue(s, t);
  }

  /** The kernel keeps the invariant, the attempts and the goals that the outbox and the integrity check rely on. */
  lemma KernelIsDisciplined(core: Core, wire: (Blobs, Attempt) -> Wire, sorted: set<Str> -> seq<Str>)
    requires core == KernelCore(wire, sorted)
    ensures Disciplined(core)
  {
    hide Attempted, Commit, Inv, Continues;
    forall s: Option<Snapshot>, i: Input
      | (s.Some? ==> Inv(s.value) && s.value.loopRef == i.command.request.loop) && Attempted(core, s, i).Ok?
      ensures Continues(s, i, Attempted(core, s, i).value.snapshot)
    {
      var t := Attempted(core, s, i).value;
      AttemptedIsCommit(core, wire, sorted, s, i);
      if s.None? { CreateContinues(i, t); } else { CommitContinues(s.value, i, t); }
    }
  }

  // The theorems, for the kernel -------------------------------------------------------------------------------

  /** After any run of the SQLite store over the kernel, each call under its own authority registry, its durable loops are
      the linear histories of their accepted commands, its outbox agrees with them, and the integrity check finds nothing
      wrong with loops, operations, outbox and blobs. */
  lemma KernelStoreIsSound(
    core: Core, wire: (Blobs, Attempt) -> Wire, sorted: set<Str> -> seq<Str>, calls: seq<Ref.SqlCall>, loop: Str)
    requires core == KernelCore(wire, sorted) && Sorts(core) && WiresGrow(core)
    ensures var t := Ref.SqlAfter(core, calls).db;
            && Lin.LoopIs(core, Ref.Abs(t), loop, Lin.OfLoop(Lin.Committed(core, Ref.Survivors(core, calls)), loop))
            && OutboxInv(core, t)
            && OutboxRuns.Verified(core, t)
  {
    hide Lin.Counts, Ref.NoConflict, Disciplined, Sorts, WiresGrow, OutboxInv, OutboxRuns.Verified, Lin.LoopIs, Ref.Abs,
         Ref.SqlAfter, KernelCore, Lin.Committed, Lin.OfLoop, Ref.Survivors;
    KernelCounts(core, wire, sorted);
    KernelHasNoConflict(core, wire, sorted);
    KernelIsDisciplined(core, wire, sorted);
    Ref.DurableIsLinear(core, calls, loop);
    OutboxRuns.OutboxAlwaysAgrees(core, calls);
    OutboxRuns.AlwaysVerified(core, calls);
  }

  /** And the whole integrity check, authority tables included, passes at every point of such a run exactly if every
      commit was made under a registry that was sound for it. */
  lemma KernelIntegrityExactly(
    core: Core, wire: (Blobs, Attempt) -> Wire, sorted: set<Str> -> seq<Str>, calls: seq<Ref.SqlCall>)
    requires core == KernelCore(wire, sorted) && Sorts(core) && WiresGrow(core)
    ensures (forall k :: 0 <= k <= |calls| ==> Reload.IntegrityHolds(core, Ref.SqlAfter(core, calls[..k]).db))
            <==> Reload.CallsSound(core, calls, Reload.VouchedBy)
  {
    hide Lin.Counts, Ref.NoConflict, Disciplined, Sorts, WiresGrow, Ref.SqlAfter, KernelCore, Reload.IntegrityHolds,
         Reload.CallsSound;
    KernelCounts(core, wire, sorted);
    KernelHasNoConflict(core, wire, sorted);
    KernelIsDisciplined(core, wire, sorted);
    Reload.IntegrityExactly(core, calls);
  }
}
