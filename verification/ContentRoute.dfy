/** Content-addressed loops under every command their reducer accepts, the route and delivery commands included: what
    keeps them on their route, and what does not.

    `base` is the snapshot without what deliveries put into the shared collections: attempts of deliveries are in
    `traffic`, results staged from them in `routed`. A write under a reference removes what either side had there. */
module ContentRoute {
  import opened Base
  import opened Records
  import opened Commands
  import opened Authority
  import opened Kernel
  import opened Transitions
  import opened PlanProgress
  import opened Invariant
  import opened Runs
  import opened StorageMode
  import opened Deliveries
  import opened Evidence

  datatype ContentLoop = ContentLoop(base: Snapshot, traffic: Traffic, routed: map<Str, RoutedResult>)

  /** `Plain` is any command of the role policy, decided on the snapshot alone. `AdvanceRouted` is AdvanceGoal by the
      review of a result staged from a delivery. `Evidence` stands for AcknowledgeResult, RecordReview,
      PrepareFinalization and CloseExecution where they look at such a result or at the attempt of a delivery: it may
      put anything into the sections that these four write, none of which classification reads. */
  datatype ContentCommand =
    | Plain(request: Request, context: Context)
    | Routing(command: RouteCommand, actor: Str)
    | AdvanceRouted(request: Request, to: GoalState)
    | Evidence(
        artifacts: map<Str, Artifact>, reports: map<Str, Report>, reviews: map<Str, Review>,
        finalizations: map<Str, Finalization>, execution: Execution, closure: Closure, routed: map<Str, RoutedResult>)

  function ModeIn(w: ContentLoop): Mode { ModeOf(Some(StoredOf(w.base))) }

  // The reducers -----------------------------------------------------------------------------------------------

  function AfterPlain(w: ContentLoop, r: Request, ctx: Context): Result<ContentLoop> {
    var t :- Dispatch(w.base, r, ctx);
    Ok(w.(base := t.snapshot,
          routed := if r.payload.Stage? && NewResult in r.allocate then w.routed - {r.allocate[NewResult]} else w.routed))
  }

  function AfterRouting(w: ContentLoop, c: RouteCommand, actor: Str): Result<ContentLoop> {
    var s := w.base;
    match c
    case BindHost(_, _) =>
      var bound :- BoundHost(s.loopRef, c);
      Ok(w.(base := s.(hosts := s.hosts[bound.0 := Host(Text(""), bound.1.ref, 1)])))
    case PrepareRoute(_, _, _, _, _) =>
      var traffic :- AfterPrepareRoute(w.traffic, s.goals.Keys, ActiveGoals(s.goals), c);
      Ok(w.(traffic := traffic))
    case BeginDelivery(_, _, _) =>
      var traffic :- AfterBegin(w.traffic, c);
      var attempt :- Given(c.attempt);
      Ok(w.(traffic := traffic, base := s.(attempts := s.attempts - {attempt})))
    case ObserveDelivery(_, _) =>
      var traffic :- AfterSend(w.traffic, s.loopRef, c);
      Ok(w.(traffic := traffic))
    case StageResult(_, _, _, outcome, summary) =>
      var staged :- StagedByRoute(w.traffic, c);
      var report := Report(actor, Digest(ReportContent(outcome, summary)), staged.0, 1, false);
      Ok(w.(routed := w.routed[staged.0 := staged.1],
            base := s.(results := s.results - {staged.0}, reports := s.reports[staged.1.report := report],
                       currentResult := Some(staged.0))))
  }

  /** The result of a review, its route and the goal agree, and the result was acknowledged. */
  predicate JustifiedByRoute(w: ContentLoop, goalRef: Str, reviewRef: Str, to: GoalState)
    requires goalRef in w.base.goals && reviewRef in w.base.reviews && w.base.reviews[reviewRef].resultRef in w.routed
  {
    var review := w.base.reviews[reviewRef];
    var result := w.routed[review.resultRef];
    && result.acknowledged && review.reportRef == result.report && Some(review.artifactRef) == result.artifact
    && result.route in w.traffic.routes && w.traffic.routes[result.route].goal == goalRef
    && MayAdvance(w.base.goals[goalRef], result.outcome, review, to)
  }

  function AfterRoutedAdvance(w: ContentLoop, r: Request, to: GoalState): Result<ContentLoop> {
    var reviewRef :- Bound(r.resolved, ReviewBinding);
    :- Need(r.subject in w.base.goals && reviewRef in w.base.reviews
            && w.base.reviews[reviewRef].resultRef in w.routed, InvalidTransition);
    :- Need(w.base.goals[r.subject].state == Active && JustifiedByRoute(w, r.subject, reviewRef, to), InvalidTransition);
    var t :- Settle(w.base, r, to);
    Ok(w.(base := t.snapshot))
  }

  /** One command, as the store applies it: a malformed snapshot accepts nothing, and the revision goes up by one. */
  function ReduceContent(w: ContentLoop, c: ContentCommand): Result<ContentLoop> {
    if ModeIn(w) != ContentMode then Err(Rejected(InternalInvariantViolation))
    else
      var u :- match c
               case Plain(r, ctx) => AfterPlain(w, r, ctx)
               case Routing(command, actor) => AfterRouting(w, command, actor)
               case AdvanceRouted(r, to) => AfterRoutedAdvance(w, r, to)
               case Evidence(artifacts, reports, reviews, finalizations, execution, closure, routed) =>
                 Ok(w.(base := w.base.(artifacts := artifacts, reports := reports, reviews := reviews,
                                       finalizations := finalizations, execution := execution, closure := closure),
                       routed := routed));
      Ok(u.(base := u.base.(loopRevision := w.base.loopRevision + 1)))
  }

  /** StageExternalResult or StageResult under an empty result reference. */
  predicate StagesUnnamed(c: ContentCommand) {
    || (c.Plain? && c.request.payload.Stage? && Find(c.request.allocate, NewResult) == Some(Text("")))
    || (c.Routing? && c.command.StageResult? && c.command.result == Some(Text("")))
  }

  /** The review judges an acknowledged result of a delivery, with its report and artifact, whose route serves the goal. */
  predicate JudgesRouted(w: ContentLoop, reviewRef: Str, goalRef: Str) {
    && reviewRef in w.base.reviews && w.base.reviews[reviewRef].resultRef in w.routed
    && var review := w.base.reviews[reviewRef];
       var result := w.routed[review.resultRef];
       && result.acknowledged && result.report == review.reportRef && result.artifact == Some(review.artifactRef)
       && result.route in w.traffic.routes && w.traffic.routes[result.route].goal == goalRef
  }

  /** A goal advances on a delivered result exactly on the grounds on which it advances on any other. */
  lemma RoutedAdvanceExactly(w: ContentLoop, r: Request, to: GoalState)
    ensures AfterRoutedAdvance(w, r, to).Ok?
            <==> && ReviewBinding in r.resolved && r.subject in w.base.goals && w.base.goals[r.subject].state == Active
                 && JudgesRouted(w, r.resolved[ReviewBinding], r.subject)
                 && Warrants(w.base.goals[r.subject].requirement,
                             w.routed[w.base.reviews[r.resolved[ReviewBinding]].resultRef].outcome,
                             w.base.reviews[r.resolved[ReviewBinding]].verdict, to)
                 && MayMoveOn(w.base, r, to)
    ensures AfterRoutedAdvance(w, r, to).Ok? ==>
              AfterRoutedAdvance(w, r, to).value == w.(base := Settle(w.base, r, to).value.snapshot)
  {
    hide Settle, MayMoveOn;
    if r.subject in w.base.goals { SettleExactly(w.base, r, to); }
  }

  // One command ------------------------------------------------------------------------------------------------

  /** The plan is intact, and pairs the same ids with the same slices. */
  predicate KeepsPlan(s: Snapshot, t: Snapshot) {
    && SnapshotPlanInv(t) && t.loopRef == s.loopRef
    && Pairing(t.plan.ids, t.plan.slices) == Pairing(s.plan.ids, s.plan.slices)
  }

  lemma SamePlanKeeps(s: Snapshot, t: Snapshot)
    requires SnapshotPlanInv(s) && t.loopRef == s.loopRef && t.goals == s.goals && t.plan == s.plan
    ensures KeepsPlan(s, t)
  {
    hide PlanInv;
  }

  lemma AdvanceKeeps(s: Snapshot, r: Request, to: GoalState, t: Reduced)
    requires SnapshotPlanInv(s) && AfterAdvance(s, r, to) == Ok(t)
    ensures KeepsPlan(s, t.snapshot)
  {
    AdvanceSettles(s, r, to, t);
    AdvanceKeepsPlan(s, r, to, t);
    hide AfterAdvance, PlanInv, GoalsAdvance, Settle;
    SettleKeepsPairing(s, r, to, t);
  }

  lemma SettleKeepsPairing(s: Snapshot, r: Request, to: GoalState, t: Reduced)
    requires r.subject in s.goals && Settle(s, r, to) == Ok(t)
    ensures t.snapshot.loopRef == s.loopRef && t.snapshot.plan.ids == s.plan.ids && t.snapshot.plan.slices == s.plan.slices
    ensures t.snapshot.currentResult == s.currentResult
  {
    hide Settle, MaterializesGoal, Quiet, LeavesPlan, Moved;
    SettleDelta(s, r, to, t);
    if !LeavesPlan(s, to) { MaterializedPlan(s, t.snapshot, r.subject, to); }
  }

  lemma MaterializedPlan(s: Snapshot, u: Snapshot, from: Str, to: GoalState)
    requires MaterializesGoal(s, u, from, to)
    ensures u.loopRef == s.loopRef && u.plan.ids == s.plan.ids && u.plan.slices == s.plan.slices
    ensures u.currentResult == s.currentResult
  {
    hide Launches, NextInLine, GoalChain, Moved;
  }

  lemma DecisionKeeps(s: Snapshot, r: Request, ctx: Context, d: Decision, fingerprint: string, t: Reduced)
    requires SnapshotPlanInv(s) && AfterDecision(s, r, ctx, d, fingerprint) == Ok(t)
    ensures KeepsPlan(s, t.snapshot)
  {
    hide AfterDecision, PlanInv, GoalsAdvance, Only, ActiveGoals, CountsRepair, Defers, Pairing;
    DecisionKeepsPlan(s, r, ctx, d, fingerprint, t);
    DecisionDelta(s, r, ctx, d, fingerprint, t);
    if d == ContinueRepair { CountingKeeps(s, t, Only(ActiveGoals(s.goals)).value); } else { DeferringKeeps(s, t, d); }
  }

  lemma CountingKeeps(s: Snapshot, t: Reduced, goalRef: Str)
    requires CountsRepair(s, t, goalRef)
    ensures t.snapshot.plan == s.plan && t.snapshot.loopRef == s.loopRef
  {
    hide Launches, RepairChain, CountedFor;
    if !DecidesOnly(s, t.snapshot) {
      assert SchedulesRepair(s, t.snapshot, goalRef, t.snapshot.policy.value.repairAttempts);
    }
  }

  lemma DeferringKeeps(s: Snapshot, t: Reduced, d: Decision)
    requires Defers(s, t, d)
    ensures t.snapshot.plan == s.plan && t.snapshot.loopRef == s.loopRef
  {
  }

  lemma ReviseKeeps(s: Snapshot, ids: seq<Str>, slices: seq<Str>, index: Str, revision: int, reason: string, t: Reduced)
    requires SnapshotPlanInv(s) && AfterRevise(s, ids, slices, index, revision, reason) == Ok(t)
    ensures KeepsPlan(s, t.snapshot)
  {
    ReviseKeepsPlan(s, ids, slices, index, revision, reason, t);
    ReviseDelta(s, ids, slices, index, revision, reason, t);
    hide AfterRevise, PlanInv, GoalsAdvance, ValidRevision, Quiet;
    ReviseKeepsPairing(s.plan, ids, slices, index, revision, reason);
  }

  lemma ResumeKeeps(s: Snapshot, fields: ResumeFields, t: Reduced)
    requires SnapshotPlanInv(s) && AfterResume(s, fields) == Ok(t)
    ensures KeepsPlan(s, t.snapshot)
  {
    hide AfterResume, PlanInv, Quiet, ExtendsBudget, KeepsPlan;
    ResumeDelta(s, fields, t);
    if ExtendsBudget(s, t) { ExtensionKeeps(s, t); } else { SamePlanKeeps(s, t.snapshot); }
  }

  lemma ExtensionKeeps(s: Snapshot, t: Reduced)
    requires SnapshotPlanInv(s) && ExtendsBudget(s, t)
    ensures KeepsPlan(s, t.snapshot)
  {
    hide PlanInv, Count, Pairing;
    BudgetKeepsPlan(s.loopRef, s.plan, t.snapshot.plan, s.goals);
  }

  // The commands that touch neither goals nor plan

  lemma ObserveKeeps(s: Snapshot, r: Request, ctx: Context, t: Reduced)
    requires SnapshotPlanInv(s) && AfterObserve(s, r, ctx) == Ok(t)
    ensures KeepsPlan(s, t.snapshot)
  {
    hide AfterObserve, KeepsPlan, PlanInv, Quiet;
    ObserveDelta(s, r, ctx, t);
    SamePlanKeeps(s, t.snapshot);
  }

  lemma EvidenceKeeps(s: Snapshot, r: Request, ctx: Context, t: Reduced)
    requires SnapshotPlanInv(s) && Dispatch(s, r, ctx) == Ok(t)
    requires r.payload.Stage? || r.payload.Acknowledge? || r.payload.Judge?
    ensures KeepsPlan(s, t.snapshot)
  {
    hide AfterStage, AfterAcknowledge, AfterReview, KeepsPlan, PlanInv, Quiet, ResultChain;
    match r.payload {
      case Stage(outcome, summary) => StageDelta(s, r, outcome, summary, t);
      case Acknowledge => AcknowledgeDelta(s, r, ctx, t);
      case Judge(verdict) => ReviewDelta(s, r, verdict, t);
    }
    SamePlanKeeps(s, t.snapshot);
  }

  lemma EndingKeeps(s: Snapshot, r: Request, ctx: Context, t: Reduced)
    requires SnapshotPlanInv(s) && Dispatch(s, r, ctx) == Ok(t)
    requires r.payload.Pause? || r.payload.Prepare? || r.payload.Close? || r.payload.Strengthen?
    ensures KeepsPlan(s, t.snapshot)
  {
    hide AfterPause, AfterPrepare, AfterClose, AfterStrengthen, KeepsPlan, PlanInv, Quiet, FinalChain;
    match r.payload {
      case Pause(reason, wait) => PauseDelta(s, reason, wait, t);
      case Prepare(d) => PrepareDelta(s, r, d, t);
      case Close => CloseDelta(s, r, ctx, t);
      case Strengthen => StrengthenDelta(s, r, ctx, t);
    }
    SamePlanKeeps(s, t.snapshot);
  }

  lemma StopKeeps(s: Snapshot, reason: string, t: Reduced)
    requires SnapshotPlanInv(s) && AfterStop(s, reason) == Ok(t)
    ensures KeepsPlan(s, t.snapshot)
  {
    StopKeepsPlan(s, reason, t);
    StopDelta(s, reason, t);
    hide AfterStop, PlanInv, GoalsAdvance, Quiet, Only, ActiveGoals;
  }

  /** Every command of the role policy keeps the plan, whatever the evidence in the snapshot is. */
  lemma DispatchKeepsPlan(s: Snapshot, r: Request, ctx: Context, t: Reduced)
    requires SnapshotPlanInv(s) && Dispatch(s, r, ctx) == Ok(t)
    ensures KeepsPlan(s, t.snapshot)
  {
    hide AfterCreate, AfterObserve, AfterStage, AfterAcknowledge, AfterReview, AfterDecision, AfterAdvance, AfterPause,
         AfterResume, AfterRevise, AfterStop, AfterPrepare, AfterClose, AfterStrengthen, SnapshotPlanInv, KeepsPlan;
    match r.payload
    case Create(c) => CreateRefused(s, r, ctx, c);
    case Observe => ObserveKeeps(s, r, ctx, t);
    case Stage(_, _) => EvidenceKeeps(s, r, ctx, t);
    case Acknowledge => EvidenceKeeps(s, r, ctx, t);
    case Judge(_) => EvidenceKeeps(s, r, ctx, t);
    case Decide(d, fingerprint) => DecisionKeeps(s, r, ctx, d, fingerprint, t);
    case Advance(to) => AdvanceKeeps(s, r, to, t);
    case Pause(_, _) => EndingKeeps(s, r, ctx, t);
    case Resume(fields) => ResumeKeeps(s, fields, t);
    case Revise(ids, slices, index, revision, reason) => ReviseKeeps(s, ids, slices, index, revision, reason, t);
    case StopNow(reason) => StopKeeps(s, reason, t);
    case Prepare(_) => EndingKeeps(s, r, ctx, t);
    case Close => EndingKeeps(s, r, ctx, t);
    case Strengthen => EndingKeeps(s, r, ctx, t);
  }

  /** What a loop has from its creation on. */
  predicate Standing(s: Snapshot) { SnapshotPlanInv(s) && Grounded(s) }

  /** A kept plan keeps the ground, and whether the ids are named. */
  lemma KeptPlanStands(s: Snapshot, t: Snapshot)
    requires Standing(s) && KeepsPlan(s, t) && t.loopRevision >= 1
    ensures Standing(t) && (AllTruthy(s.plan.ids) <==> AllTruthy(t.plan.ids))
  {
    hide GoalAt, AllTruthy, Pairing;
    NamesAreKept(s.plan, t.plan);
  }

  lemma PlainStep(w: ContentLoop, r: Request, ctx: Context, u: ContentLoop)
    requires Standing(w.base) && AfterPlain(w, r, ctx) == Ok(u)
    ensures KeepsPlan(w.base, u.base)
    ensures if r.payload.Stage? then NewResult in r.allocate && u.base.currentResult == Some(r.allocate[NewResult])
            else u.base.currentResult == w.base.currentResult
  {
    hide Dispatch, KeepsPlan, SnapshotPlanInv, Grounded;
    var t := Dispatch(w.base, r, ctx).value;
    DispatchKeepsPlan(w.base, r, ctx, t);
    CurrentResultMoves(w.base, r, ctx, t);
  }

  lemma RoutingStep(w: ContentLoop, c: RouteCommand, actor: Str, u: ContentLoop)
    requires Standing(w.base) && AfterRouting(w, c, actor) == Ok(u)
    ensures KeepsPlan(w.base, u.base)
    ensures if c.StageResult? then c.result.Some? && u.base.currentResult == c.result
            else u.base.currentResult == w.base.currentResult
  {
    hide KeepsPlan, SnapshotPlanInv, Grounded, AfterPrepareRoute, AfterBegin, AfterSend, BoundHost, ActiveGoals;
    SamePlanKeeps(w.base, u.base);
  }

  lemma RoutedAdvanceStep(w: ContentLoop, r: Request, to: GoalState, u: ContentLoop)
    requires Standing(w.base) && AfterRoutedAdvance(w, r, to) == Ok(u)
    ensures KeepsPlan(w.base, u.base) && u.base.currentResult == w.base.currentResult
  {
    hide Settle, PlanInv, Grounded, GoalsAdvance;
    var t := Settle(w.base, r, to).value;
    SettlingKeepsPlan(w.base, r, to, t);
    SettleKeepsPairing(w.base, r, to, t);
  }

  /** The layout after one command: the plan is kept, and only the two staging commands move the current result. */
  lemma OneStep(w: ContentLoop, c: ContentCommand, u: ContentLoop)
    requires Standing(w.base) && ReduceContent(w, c) == Ok(u)
    ensures KeepsPlan(w.base, u.base) && u.base.loopRevision >= 1 && ModeIn(w) == ContentMode
    ensures if StagesUnnamed(c) then u.base.currentResult == Some(Text(""))
            else u.base.currentResult == w.base.currentResult
                 || (u.base.currentResult.Some? && Truthy(u.base.currentResult.value))
  {
    hide AfterPlain, AfterRouting, AfterRoutedAdvance, KeepsPlan, SnapshotPlanInv, Grounded, ModeIn;
    match c
    case Plain(r, ctx) =>
      var v := AfterPlain(w, r, ctx).value;
      PlainStep(w, r, ctx, v);
      RevisionKeeps(w.base, v.base, w.base.loopRevision + 1);
    case Routing(command, actor) =>
      var v := AfterRouting(w, command, actor).value;
      RoutingStep(w, command, actor, v);
      RevisionKeeps(w.base, v.base, w.base.loopRevision + 1);
    case AdvanceRouted(r, to) =>
      var v := AfterRoutedAdvance(w, r, to).value;
      RoutedAdvanceStep(w, r, to, v);
      RevisionKeeps(w.base, v.base, w.base.loopRevision + 1);
    case Evidence(_, _, _, _, _, _, _) => SamePlanKeeps(w.base, u.base);
  }

  lemma RevisionKeeps(s: Snapshot, t: Snapshot, revision: nat)
    requires KeepsPlan(s, t)
    ensures KeepsPlan(s, t.(loopRevision := revision))
  {
    hide PlanInv, Pairing;
  }

  /** An accepted command, of the role policy or of the route, keeps a content loop on its route if and only if it does
      not stage a result under an empty reference. */
  lemma ContentModeIsStable(w: ContentLoop, c: ContentCommand, u: ContentLoop)
    requires Standing(w.base) && ReduceContent(w, c) == Ok(u)
    ensures Standing(u.base)
    ensures ModeIn(w) == ContentMode && ModeIn(u) == if StagesUnnamed(c) then MalformedMode else ContentMode
  {
    hide ReduceContent, StagesUnnamed, ModeOf, StoredOf, KeepsPlan, SnapshotPlanInv, Grounded;
    OneStep(w, c, u);
    KeptPlanStands(w.base, u.base);
    ContentExactly(w.base);
    ContentExactly(u.base);
  }

  // Runs -------------------------------------------------------------------------------------------------------

  /** What a created loop is after some commands; the refused ones leave it as it was. */
  function ContentAfter(s: Snapshot, run: seq<ContentCommand>): ContentLoop {
    if run == [] then ContentLoop(s, NO_TRAFFIC, map[])
    else
      var w := ContentAfter(s, run[..|run| - 1]);
      var u := ReduceContent(w, run[|run| - 1]);
      if u.Ok? then u.value else w
  }

  /** Some command of the run was accepted and staged a result under an empty reference. */
  predicate RunStagesUnnamed(s: Snapshot, run: seq<ContentCommand>) {
    exists k :: 0 <= k < |run| && StagesUnnamedAt(s, run, k)
  }

  predicate StagesUnnamedAt(s: Snapshot, run: seq<ContentCommand>, k: nat)
    requires k < |run|
  {
    StagesUnnamed(run[k]) && ReduceContent(ContentAfter(s, run[..k]), run[k]).Ok?
  }

  lemma StagesUnnamedLast(s: Snapshot, run: seq<ContentCommand>)
    requires run != []
    ensures var n := |run| - 1;
            RunStagesUnnamed(s, run) <==> RunStagesUnnamed(s, run[..n]) || StagesUnnamedAt(s, run, n)
  {
    hide ReduceContent, StagesUnnamed, ContentAfter;
    var n := |run| - 1;
    forall k | 0 <= k < n ensures StagesUnnamedAt(s, run[..n], k) == StagesUnnamedAt(s, run, k) {
      assert run[..n][..k] == run[..k];
    }
  }

  /** From creation on, through any commands: a loop is malformed from the start if one of its planned ids is empty, and
      from the first result staged under an empty reference; otherwise it is on the content route for life. */
  lemma {:induction false} ContentModeForLife(i: Input, t: Reduced, run: seq<ContentCommand>)
    requires Commit(None, i) == Ok(t)
    ensures i.command.request.payload.Create?
    ensures Standing(ContentAfter(t.snapshot, run).base)
    ensures ModeIn(ContentAfter(t.snapshot, run))
            == if !AllTruthy(i.command.request.payload.startup.ids) || RunStagesUnnamed(t.snapshot, run)
               then MalformedMode else ContentMode
  {
    hide Commit, Inv, ModeOf, StoredOf, Grounded, SnapshotPlanInv, AllTruthy, StagesUnnamed, RunStagesUnnamed, Fits;
    CreateMode(i, t);
    if run == [] {
      CommitCreates(i, t);
      InvHasPlan(t.snapshot);
      assert !RunStagesUnnamed(t.snapshot, []) by { NothingStaged(t.snapshot); }
    } else {
      var n := |run| - 1;
      ContentModeForLife(i, t, run[..n]);
      StagesUnnamedLast(t.snapshot, run);
      var w := ContentAfter(t.snapshot, run[..n]);
      if ReduceContent(w, run[n]).Ok? { ContentModeIsStable(w, run[n], ReduceContent(w, run[n]).value); }
      hide ReduceContent;
    }
  }

  lemma NothingStaged(s: Snapshot)
    ensures !RunStagesUnnamed(s, [])
  {
  }
}
