/** Which commands a loop accepts, all checks taken together. */
module Acceptance {
  import opened Base
  import opened Records
  import opened Commands
  import opened Authority
  import opened Kernel
  import opened Permissions
  import opened Transitions
  import opened PlanProgress
  import opened EffectCoupling
  import opened ResultBinding
  import opened ClosureBacking
  import opened Invariant
  import opened Runs
  import opened Evidence
  import opened Steering
  import opened Closing

  /** Nothing is wrong with the command's shape, and it carries its own digest. */
  predicate Genuine(c: Command) { c.defect == None && c.unencodable == None && c.sealed }

  /** What each command demands of an existing loop. */
  ghost predicate Accepts(s: Snapshot, r: Request, ctx: Context) {
    match r.payload
    case Create(_) => false
    case Observe => exists next :: MayObserveAs(s, r, ctx, next)
    case Stage(_, summary) => MayStage(s, r, summary)
    case Acknowledge => MayAcknowledge(s, r, ctx)
    case Judge(_) => exists c :: MayReview(s, r, c)
    case Decide(d, fingerprint) =>
      && (exists c :: Informed(s, r, ctx.latest, fingerprint, c))
      && (d == ContinueRepair ==> exists g :: g in s.goals && MayContinue(s, r, g, fingerprint))
    case Advance(to) =>
      ReviewBinding in r.resolved && Evident(s, r.subject, r.resolved[ReviewBinding], to) && MayMoveOn(s, r, to)
    case Pause(reason, _) => s.execution.state == Running && Reasoned(reason)
    case Resume(fields) => s.execution.state == Paused && EndsWait(s, fields)
    case Revise(ids, slices, index, revision, reason) => MayReorder(s.plan, ids, slices, index, revision, reason)
    case StopNow(reason) =>
      && s.execution.state in {Running, Paused} && Reasoned(reason) && exists g :: g in s.goals && OneActive(s.goals, g)
    case Prepare(d) => exists c :: MayPrepare(s, r, d, c)
    case Close => exists c :: MayClose(s, r, ctx, c)
    case Strengthen => MayStrengthen(s, r, ctx)
  }

  lemma DispatchExactly(s: Snapshot, r: Request, ctx: Context)
    requires SnapshotPlanInv(s)
    ensures Dispatch(s, r, ctx).Ok? <==> Accepts(s, r, ctx)
  {
    hide AfterCreate, AfterObserve, AfterStage, AfterAcknowledge, AfterReview, AfterDecision, AfterAdvance, AfterPause,
         AfterResume, AfterRevise, AfterStop, AfterPrepare, AfterClose, AfterStrengthen, SnapshotPlanInv;
    hide MayObserveAs, MayStage, MayAcknowledge, MayReview, Informed, MayContinue, Evident, MayMoveOn, Reasoned, EndsWait,
         MayReorder, OneActive, MayPrepare, MayClose, MayStrengthen, ObservesAs, StagedAfter, AcknowledgedAfter,
         SettledAfter, ResumedAfter, PreparedAfter, ClosedAfter;
    match r.payload
    case Create(c) => CreateRefused(s, r, ctx, c);
    case Observe => ObserveExactly(s, r, ctx);
    case Stage(outcome, summary) => StageExactly(s, r, outcome, summary);
    case Acknowledge => AcknowledgeExactly(s, r, ctx);
    case Judge(verdict) => ReviewExactly(s, r, verdict);
    case Decide(d, fingerprint) => DecisionExactly(s, r, ctx, d, fingerprint);
    case Advance(to) => AdvanceExactly(s, r, to);
    case Pause(reason, wait) => PauseExactly(s, reason, wait);
    case Resume(fields) => ResumeExactly(s, fields);
    case Revise(ids, slices, index, revision, reason) => ReviseExactly(s, ids, slices, index, revision, reason);
    case StopNow(reason) => StopExactly(s, reason);
    case Prepare(d) => PrepareExactly(s, r, d);
    case Close => CloseExactly(s, r, ctx);
    case Strengthen => StrengthenExactly(s, r, ctx);
  }

  lemma FewAreDecided(s: Snapshot, r: Request, ctx: Context, d: Decision, fingerprint: string)
    requires AfterDecision(s, r, ctx, d, fingerprint).Ok?
    ensures |AfterDecision(s, r, ctx, d, fingerprint).value.events| <= 3
  {
    hide AfterDecision, MayContinue, Informed, RepairLaunched, Spent, CountedFor, Streak;
    DecisionExactly(s, r, ctx, d, fingerprint);
    if d == ContinueRepair {
      var g :| g in s.goals && MayContinue(s, r, g, fingerprint);
      DecisionIsRecorded(s, r, ctx, d, fingerprint, g);
    } else {
      DecisionIsRecorded(s, r, ctx, d, fingerprint, s.loopRef);
    }
  }

  lemma FewAreSettled(s: Snapshot, r: Request, to: GoalState)
    requires AfterAdvance(s, r, to).Ok?
    ensures |AfterAdvance(s, r, to).value.events| <= 5
  {
    hide AfterAdvance, NextAfter, NextLaunched, MayMoveOn, GoalChain;
    AdvanceExactly(s, r, to);
  }

  lemma FewAreObserved(s: Snapshot, r: Request, ctx: Context)
    requires AfterObserve(s, r, ctx).Ok?
    ensures |AfterObserve(s, r, ctx).value.events| <= 2
  {
    hide ReceiptOfEffect, Sighted;
  }

  lemma FewAreAcknowledged(s: Snapshot, r: Request, ctx: Context)
    requires AfterAcknowledge(s, r, ctx).Ok?
    ensures |AfterAcknowledge(s, r, ctx).value.events| <= 4
  {
    hide Acknowledgement;
  }

  /** No command announces more than five events, so the limit of sixteen is never met. */
  lemma EventsAreFew(s: Snapshot, r: Request, ctx: Context)
    requires SnapshotPlanInv(s) && Dispatch(s, r, ctx).Ok?
    ensures |Dispatch(s, r, ctx).value.events| <= 5
  {
    hide AfterCreate, AfterObserve, AfterStage, AfterAcknowledge, AfterReview, AfterDecision, AfterAdvance, AfterPause,
         AfterResume, AfterRevise, AfterStop, AfterPrepare, AfterClose, AfterStrengthen, SnapshotPlanInv;
    match r.payload
    case Create(c) => CreateRefused(s, r, ctx, c);
    case Observe => FewAreObserved(s, r, ctx);
    case Stage(outcome, summary) => StageExactly(s, r, outcome, summary);
    case Acknowledge => FewAreAcknowledged(s, r, ctx);
    case Judge(verdict) => ReviewExactly(s, r, verdict);
    case Decide(d, fingerprint) => FewAreDecided(s, r, ctx, d, fingerprint);
    case Advance(to) => FewAreSettled(s, r, to);
    case Pause(reason, wait) => PauseExactly(s, reason, wait);
    case Resume(fields) => ResumeExactly(s, fields);
    case Revise(ids, slices, index, revision, reason) => ReviseExactly(s, ids, slices, index, revision, reason);
    case StopNow(reason) => FewAtStop(s, reason);
    case Prepare(d) => FewAreFinal(s, r, ctx);
    case Close => FewAreFinal(s, r, ctx);
    case Strengthen => StrengthenExactly(s, r, ctx);
  }

  lemma FewAtStop(s: Snapshot, reason: string)
    requires AfterStop(s, reason).Ok?
    ensures |AfterStop(s, reason).value.events| <= 2
  {
    hide Only, ActiveGoals, Blank;
  }

  lemma FewAreFinal(s: Snapshot, r: Request, ctx: Context)
    ensures forall d :: AfterPrepare(s, r, d).Ok? ==> |AfterPrepare(s, r, d).value.events| == 1
    ensures AfterClose(s, r, ctx).Ok? ==> |AfterClose(s, r, ctx).value.events| <= 2
  {
    hide FinalChain, CheckDisposition, ClosingEvidence;
  }

  // Whole commands ---------------------------------------------------------------------------------------------

  /** An accepted result that can be canonically encoded. */
  predicate Encodable(t: Result<Reduced>) { t.Ok? ==> Fits(t.value.snapshot) }

  /** On an intact plan a command is committed exactly if it is genuine, permitted, refers to what is there, is accepted,
      and leaves a snapshot that can be encoded. */
  lemma CommitsExactly(s: Snapshot, i: Input)
    requires SnapshotPlanInv(s)
    ensures |s.plan.ids| == |s.plan.slices|
    ensures var r := i.command.request;
            Commit(Some(s), i).Ok?
            <==> && Genuine(i.command) && Permitted(r, i.context, Some(s)) && Referenced(Some(s), r)
                 && Accepts(s, r, i.context) && Encodable(Dispatch(s, r, i.context))
  {
    hide Fits, Dispatch, ValidateAuthority, ValidateReferences, Permitted, Referenced, Accepts, SnapshotPlanInv, AfterCreate;
    var r := i.command.request;
    ShapeOf(s);
    AuthorityExactly(r, i.context, Some(s));
    ReferencesExactly(Some(s), r);
    DispatchExactly(s, r, i.context);
    if Dispatch(s, r, i.context).Ok? {
      EventsAreFew(s, r, i.context);
      FitsAnyway(Dispatch(s, r, i.context).value.snapshot, r.expectedRevision + 1);
    }
  }

  /** So it is at any point of any run. */
  lemma CommitExactly(run: seq<Input>, s: Snapshot, i: Input)
    requires After(run) == Some(s)
    ensures |s.plan.ids| == |s.plan.slices|
    ensures var r := i.command.request;
            Commit(Some(s), i).Ok?
            <==> && Genuine(i.command) && Permitted(r, i.context, Some(s)) && Referenced(Some(s), r)
                 && Accepts(s, r, i.context) && Encodable(Dispatch(s, r, i.context))
  {
    hide Inv, Fits, Commit, Dispatch, Permitted, Referenced, Accepts, SnapshotPlanInv;
    ReachableInv(run);
    PlanOfInv(s);
    CommitsExactly(s, i);
  }

  /** Otherwise the command is answered by its first shortcoming: its own defect, the authority check, the reference check,
      the reducer, the limit of the encoding. */
  lemma CommitAnswers(run: seq<Input>, s: Snapshot, i: Input)
    requires After(run) == Some(s) && Commit(Some(s), i).Err?
    ensures |s.plan.ids| == |s.plan.slices|
    ensures var c := i.command; var r := c.request; var f := Commit(Some(s), i).failure;
            if !Genuine(c) then
              f == Rejected(if c.defect.Some? then CodeOf(c.defect.value)
                            else if c.unencodable.Some? then CodeOf(c.unencodable.value) else InvalidCommand)
            else if !Permitted(r, i.context, Some(s)) then ValidateAuthority(r, i.context, Some(s)) == Check.Stop(f)
            else if !Referenced(Some(s), r) then ValidateReferences(Some(s), r) == Check.Stop(f)
            else if !Accepts(s, r, i.context) then Dispatch(s, r, i.context) == Err(f)
            else f == Rejected(ResourceLimitExceeded)
  {
    hide Inv, Fits, Dispatch, ValidateAuthority, ValidateReferences, Permitted, Referenced, Accepts, SnapshotPlanInv,
         AfterCreate;
    var r := i.command.request;
    ReachableInv(run);
    PlanOfInv(s);
    ShapeOf(s);
    AuthorityExactly(r, i.context, Some(s));
    ReferencesExactly(Some(s), r);
    DispatchExactly(s, r, i.context);
    if Dispatch(s, r, i.context).Ok? { EventsAreFew(s, r, i.context); }
  }

  lemma FitsAnyway(s: Snapshot, revision: nat)
    ensures Fits(s) <==> Fits(s.(loopRevision := revision))
  {
  }

  lemma PlanOfInv(s: Snapshot)
    requires Inv(s)
    ensures SnapshotPlanInv(s)
  {
    hide SnapshotPlanInv, CoupledInv, BoundInv, EndingInv, PolicyInv;
  }

  lemma CreatedFits(r: Request, ctx: Context, c: Startup)
    requires AfterCreate(None, r, ctx, c).Ok?
    ensures Fits(AfterCreate(None, r, ctx, c).value.snapshot) && |AfterCreate(None, r, ctx, c).value.events| == 6
  {
    hide StartupReceipt, StartupBaseline, ValidObjective, Is64, NewEffectRecord, NewAttemptRecord, InitialGoal, GoalChain,
         Distinct;
  }

  /** A loop is committed exactly by a genuine, permitted command to create it that is accepted; the created snapshot can
      always be encoded. */
  lemma FirstCommitExactly(i: Input)
    ensures var r := i.command.request;
            Commit(None, i).Ok?
            <==> && Genuine(i.command) && Permitted(r, i.context, None) && Referenced(None, r)
                 && r.payload.Create? && MayCreate(r, i.context, r.payload.startup)
  {
    hide Fits, Dispatch, ValidateAuthority, ValidateReferences, Permitted, Referenced, MayCreate, AfterCreate;
    var r := i.command.request;
    AuthorityExactly(r, i.context, None);
    ReferencesExactly(None, r);
    if r.payload.Create? {
      CreateIsAllowed(r, i.context, r.payload.startup);
      if AfterCreate(None, r, i.context, r.payload.startup).Ok? {
        CreatedFits(r, i.context, r.payload.startup);
        FitsAnyway(AfterCreate(None, r, i.context, r.payload.startup).value.snapshot, r.expectedRevision + 1);
      }
    }
  }
}
