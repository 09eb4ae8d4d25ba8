/** The command reducers, each as a function from the persisted snapshot to the accepted result or the failure.
    `KernelDraft` runs the same reducers in place on a copy, as the program does, and is proved to compute these. */
module Kernel {
  import opened Base
  import opened Records
  import opened Commands
  import opened Authority

  const CREATE_TASK := Text("create_task")
  const CONFIRM_START := Text("confirm_start")
  const VERIFY_ARTIFACT := Text("verify-artifact")
  const LIFECYCLE_READBACK := Text("lifecycle-readback")
  const CAPTURED := Text("CAPTURED")
  const PROFILES := {Text("existing_git"), Text("non_git"), Text("new_git")}
  const BASELINE_FIELDS := {BaselineBlob, ArtifactProfile, WorkspaceIdentity}

  /** The goals in state ACTIVE. */
  function ActiveGoals(goals: map<Str, Goal>): set<Str> {
    set g | g in goals && goals[g].state == Active
  }

  // CreateLoop ----------------------------------------------------------------------------------------------

  predicate ValidObjective(c: Startup) {
    && !Blank(c.objective)
    && |c.goalPlan| == 1 && !Blank(c.goalPlan[0]) && Strip(c.goalPlan[0]) == Strip(c.objective)
    && 1 <= c.maxRevisions <= 17 && (!c.adaptive ==> c.maxRevisions == 1)
  }

  predicate Distinct(ids: seq<Str>) { |(set i | 0 <= i < |ids| :: ids[i])| == |ids| }

  predicate ValidPlanIdentity(c: Startup) {
    && c.complete
    && 1 <= c.goalCount <= (if c.capacity == CapacityV2 then 128 else 32)
    && c.activeIndex == 0 && c.planRevision == 0
    && |c.ids| == c.goalCount && |c.slices| == c.goalCount && Distinct(c.ids)
    && c.goalId == c.ids[0] && c.slice == c.slices[0]
    && Is64(c.planDigest) && Is64(c.indexDigest) && Is64(c.authority) && Is64(c.workspace) && Is64(c.stopPolicy)
    && (forall i :: 0 <= i < |c.slices| ==> Is64(c.slices[i]))
    && c.invocations >= c.goalCount && c.seconds >= 1 && c.cost >= 0
    && c.capacity != CapacityUnknown
    && 1 <= c.maxAttempts <= 3
    && (c.capacity == CapacityV1 ==> c.requirement == Required && c.maxAttempts == 1)
  }

  predicate AllocatesChain(allocate: map<Slot, Str>, chain: Chain) {
    && Find(allocate, NewAttempt) == Some(chain.attemptRef)
    && Find(allocate, NewEffect) == Some(chain.effectRef)
    && Find(allocate, NewGoal) == Some(chain.goalRef)
    && Find(allocate, NewHost) == Some(chain.hostRef)
    && Find(allocate, ProviderIdempotencyKey) == Some(chain.providerKey)
  }

  function StartupReceipt(r: Request, ctx: Context): Result<StartAuthorization> {
    if ProviderAction !in r.resolved || TargetRef !in r.resolved then Err(Rejected(InvalidCommand)) else
    var manifest := Find(r.resolved, PreparedManifest);
    var boundary := Find(r.resolved, BoundaryDigest);
    var bundle := Find(r.resolved, PreparedBundle);
    :- Need(manifest.Some? && Truthy(manifest.value) && boundary.Some? && Truthy(boundary.value)
            && bundle.Some? && Truthy(bundle.value), UserConfirmationRequired);
    var receipt :- ReceiptFor(r, ctx, About(CONFIRM_START, r.loop, None, boundary, manifest));
    :- Need(receipt.trust == StrictTrust && receipt.outcome == SeenObserved && receipt.evidence == bundle.value,
            UserConfirmationStale);
    Ok(StartAuthorization(boundary.value, bundle.value, manifest.value, receipt.ref))
  }

  /** The artifact baseline bound at startup: all of its fields or none. */
  function StartupBaseline(r: Request): Result<Option<Baseline>> {
    if r.resolved.Keys !! BASELINE_FIELDS then Ok(None)
    else
      :- Need(BASELINE_FIELDS <= r.resolved.Keys && r.resolved[ArtifactProfile] in PROFILES, InvalidCommand);
      Ok(Some(Baseline(r.resolved[BaselineBlob], r.resolved[ArtifactProfile], r.resolved[WorkspaceIdentity])))
  }

  function NewEffectRecord(chain: Chain, action: Str, baseline: Option<Baseline>): Effect {
    Effect(action, baseline, chain.attemptRef, chain.goalRef, chain.hostRef, chain.providerTarget, 1, Committed, None)
  }

  function NewAttemptRecord(
    r: Request, chain: Chain, action: Str, ordinal: int, request: ProviderRequest, requestDigest: Str): Attempt
  {
    Attempt(action, r.actor, r.grant, chain.effectRef, ordinal, chain.providerKey, request, requestDigest,
            chain.providerTarget, 1, Committed, None)
  }

  function InitialPlan(c: Startup, goalRef: Str): Plan {
    Plan(goalRef, 0, c.authority, Budget(c.cost, c.invocations, c.seconds), c.capacity, c.goalCount, c.maxRevisions,
         c.adaptive, c.ids, c.slices, c.planDigest, c.indexDigest, 0, c.stopPolicy, c.workspace, None)
  }

  function InitialGoal(c: Startup, chain: Chain): Goal {
    Goal(chain, None, c.goalId, c.slice, c.maxAttempts, Digest(ObjectiveText(c.objective)), 0, c.requirement, 1, Active)
  }

  /** `_create_loop` */
  function AfterCreate(s: Option<Snapshot>, r: Request, ctx: Context, c: Startup): Result<Reduced> {
    if s.Some? || r.expectedRevision != 0 then Err(Rejected(InvalidTransition)) else
    var goalRef :- Bound(r.allocate, NewGoal);
    :- Need(ValidObjective(c) && ValidPlanIdentity(c), InvalidCommand);
    var chain := GoalChain(r.loop, c.planDigest, c.goalId, c.slice);
    :- Need(AllocatesChain(r.allocate, chain) && Find(r.resolved, TargetRef) == Some(chain.providerTarget),
            InvalidCommand);
    var start :- StartupReceipt(r, ctx);
    var baseline :- StartupBaseline(r);
    var action := r.resolved[ProviderAction];
    :- Need(Truthy(action), InvalidCommand);
    var requestDigest :- Bound(r.resolved, RequestDigest);
    :- Need(Is64(requestDigest), InvalidCommand);
    var request := ProviderRequest(
      0, if baseline.Some? then baseline.value.blob else Text("UNBOUND"), c.goalId, c.slice, c.planDigest,
      c.indexDigest, First, chain.providerTarget, c.workspace);
    var snapshot := Snapshot(
      r.loop, 0,
      map[goalRef := InitialGoal(c, chain)],
      map[chain.effectRef := NewEffectRecord(chain, action, baseline)],
      map[chain.attemptRef := NewAttemptRecord(r, chain, action, 1, request, requestDigest)],
      map[], map[], map[], map[], map[], map[],
      Execution(Running, None, 1, None, None, None), Closure(NoStrength, None, None, 0),
      InitialPlan(c, goalRef), None, None, Some(start));
    Ok(Reduced(snapshot,
               [LoopCreated(r.loop), GoalRegistered(goalRef), GoalActivated(goalRef), GoalPlanRegistered(c.planDigest),
                StartAuthorized(start.receipt), ExternalEffectPrepared(chain.effectRef)],
               Created(goalRef, chain.effectRef)))
  }

  // RecordExternalEffectObservation -------------------------------------------------------------------------

  /** The state a receipt moves an attempt to, and the leading event. */
  function Sighted(receipt: Receipt, prior: Observation, effectRef: Str): Result<(Observation, Event)> {
    if receipt.outcome == SeenObserved && receipt.trust == StrictTrust then
      Ok((Observed, if prior in {Unknown, Unverifiable} then LateExternalEffectObserved(effectRef)
                    else ExternalEffectObserved(effectRef)))
    else if receipt.outcome == SeenUnknown then
      :- Need(prior == Committed, InvalidTransition);
      Ok((Unknown, ExternalEffectUnknown(effectRef)))
    else if receipt.trust == CooperativeTrust then
      :- Need(prior == Committed, InvalidTransition);
      Ok((Unverifiable, ExternalEffectUnverifiable(effectRef)))
    else Err(Rejected(ReceiptIssuerUntrusted))
  }

  /** The receipt of an observation, once it is known to be about the attempt. */
  function ReceiptOfEffect(r: Request, ctx: Context, effect: Effect, attempt: Attempt): (found: Result<Receipt>)
    ensures found.Ok? && found.value.outcome == SeenObserved ==> found.value.resource.Some?
  {
    var subject := About(attempt.action, r.subject, Some(effect.attemptRef), Some(attempt.target),
                         Some(attempt.requestDigest));
    var receipt :- ReceiptFor(r, ctx, subject);
    :- Need(receipt.key == Some(attempt.key), ReceiptIdentityMismatch);
    :- Need(receipt.outcome == SeenObserved ==> receipt.resource.Some? && Truthy(receipt.resource.value),
            ReceiptIdentityMismatch);
    Ok(receipt)
  }

  /** An attempt and its effect once they are observed in a state. */
  function Marked(s: Snapshot, ref: Str, effect: Effect, attempt: Attempt, receiptRef: Str, state: Observation): Snapshot {
    s.(attempts := s.attempts[effect.attemptRef :=
                                attempt.(receipt := Some(receiptRef), revision := attempt.revision + 1, state := state)],
       effects := s.effects[ref := effect.(receipt := Some(receiptRef), revision := effect.revision + 1, state := state)])
  }

  /** `_observe_external_effect` */
  function AfterObserve(s: Snapshot, r: Request, ctx: Context): Result<Reduced> {
    var effect :- Get(s.effects, r.subject);
    var attempt :- Get(s.attempts, effect.attemptRef);
    var receipt :- ReceiptOfEffect(r, ctx, effect, attempt);
    var sighted :- Sighted(receipt, attempt.state, r.subject);
    var (state, event) := sighted;
    var bound := state == Observed && effect.hostRef !in s.hosts;
    :- Need(state == Observed && effect.hostRef in s.hosts ==> s.hosts[effect.hostRef].receipt == receipt.ref,
            ReceiptIdentityMismatch);
    var hosts := if bound then s.hosts[effect.hostRef := Host(receipt.resource.value, receipt.ref, 1)] else s.hosts;
    Ok(Reduced(
      Marked(s.(hosts := hosts), r.subject, effect, attempt, receipt.ref, state),
      [event] + (if bound then [HostResourceBound(effect.hostRef)] else []),
      ObservedAs(state, if state == Observed then Some(effect.hostRef) else None)))
  }

  // StageExternalResult, AcknowledgeResult, RecordReview -----------------------------------------------------

  /** `_stage_external_result` */
  function AfterStage(s: Snapshot, r: Request, outcome: Outcome, summary: string): Result<Reduced> {
    var effect :- Get(s.effects, r.subject);
    :- Need(effect.state != Committed, InvalidTransition);
    var resultRef :- Bound(r.allocate, NewResult);
    var reportRef :- Bound(r.allocate, NewReport);
    var observation :- Bound(r.resolved, SourceObservation);
    :- Need(IsHex64(observation), ReceiptIdentityMismatch);
    :- Need(!Blank(summary), ResourceLimitExceeded);
    var active := Only(ActiveGoals(s.goals));
    :- Need(active.Some?, InvalidTransition);
    var result := ResultRec(effect.attemptRef, r.subject, active.value, outcome, reportRef, observation, None, 1, Staged);
    var report := Report(r.actor, Digest(ReportContent(outcome, summary)), resultRef, 1, false);
    Ok(Reduced(s.(results := s.results[resultRef := result], reports := s.reports[reportRef := report],
                  currentResult := Some(resultRef)),
               [ResultStaged(resultRef), ReportStaged(reportRef)], StagedAs(resultRef, reportRef)))
  }

  /** The artifact that an acknowledgement registers, and its reference. */
  function Acknowledgement(r: Request, ctx: Context): Result<(Str, Artifact)> {
    var artifactRef :- Bound(r.allocate, NewArtifact);
    var content :- Bound(r.resolved, ArtifactDigest);
    var capture :- Bound(r.resolved, CaptureState);
    var profile :- Bound(r.resolved, ArtifactProfile);
    var manifest :- Bound(r.resolved, ManifestDigest);
    var verification :- Bound(r.resolved, VerificationDigest);
    var verificationState :- Bound(r.resolved, VerificationState);
    var receipt :- ReceiptFor(r, ctx, About(VERIFY_ARTIFACT, artifactRef, None, None, Some(verification)));
    :- Need(receipt.evidence == content, ReceiptIdentityMismatch);
    :- Need(capture in {CAPTURED, Text("UNAVAILABLE")}, InvalidCommand);
    :- Need(verificationState in {Text("VERIFIED"), Text("FAILED"), Text("UNVERIFIABLE")}, InvalidCommand);
    var strict := receipt.trust == StrictTrust && receipt.outcome == SeenObserved;
    :- Need(strict || (receipt.trust == CooperativeTrust && receipt.outcome == SeenUnverifiable),
            ReceiptIdentityMismatch);
    :- Need(strict ==> capture == CAPTURED, ReceiptIdentityMismatch);
    var artifact := Artifact(content, capture, manifest, profile, receipt.ref, r.subject, verification,
                             verificationState, strict, 1);
    Ok((artifactRef, artifact))
  }

  /** `_acknowledge_result` */
  function AfterAcknowledge(s: Snapshot, r: Request, ctx: Context): Result<Reduced> {
    var result :- Get(s.results, r.subject);
    var report :- Get(s.reports, result.reportRef);
    :- Need(result.state == Staged && !report.accepted, InvalidTransition);
    var acknowledged :- Acknowledgement(r, ctx);
    var (artifactRef, artifact) := acknowledged;
    Ok(Reduced(
      s.(artifacts := s.artifacts[artifactRef := artifact],
         reports := s.reports[result.reportRef := report.(revision := report.revision + 1, accepted := true)],
         results := s.results[r.subject := result.(artifactRef := Some(artifactRef), revision := result.revision + 1,
                                                   state := Acknowledged)]),
      (if artifact.capture == CAPTURED then [ArtifactCaptured(artifactRef)] else [])
      + [if artifact.verified then ArtifactVerified(artifactRef) else ArtifactUnverifiable(artifactRef),
         ReportAccepted(result.reportRef), ResultAcknowledged(r.subject)],
      AcknowledgedAs(artifactRef)))
  }

  /** `_result_chain`: the current result and every record it stands on, with their revisions. */
  function ResultChain(s: Snapshot): Result<SubjectChain> {
    var resultRef :- if s.currentResult.Some? then Ok(s.currentResult.value) else
                       var only := Only(s.results.Keys);
                       if only.Some? then Ok(only.value) else Err(Rejected(InternalInvariantViolation));
    var result :- Get(s.results, resultRef);
    var artifactRef :- if result.artifactRef.Some? then Ok(result.artifactRef.value) else Err(Fault);
    var artifact :- Get(s.artifacts, artifactRef);
    var attempt :- Get(s.attempts, result.attemptRef);
    var report :- Get(s.reports, result.reportRef);
    var effect :- Get(s.effects, result.effectRef);
    var goalRef :- if result.goalRef in s.goals then Ok(result.goalRef) else
                     var only := Only(s.goals.Keys);
                     if only.Some? then Ok(only.value) else Err(Rejected(InternalInvariantViolation));
    var host :- Get(s.hosts, effect.hostRef);
    var goal :- Get(s.goals, goalRef);
    Ok(SubjectChain(Versioned(artifactRef, artifact.revision), Versioned(result.attemptRef, attempt.revision),
                    Versioned(result.reportRef, report.revision), Versioned(resultRef, result.revision),
                    Versioned(result.effectRef, effect.revision), Versioned(effect.hostRef, host.revision),
                    Versioned(goalRef, goal.revision), None))
  }

  /** `_record_review` */
  function AfterReview(s: Snapshot, r: Request, verdict: Verdict): Result<Reduced> {
    var result :- Get(s.results, r.subject);
    :- Need(result.state == Acknowledged, InvalidTransition);
    var reviewRef :- Bound(r.allocate, NewReview);
    var chain :- ResultChain(s);
    var artifactRef :- if result.artifactRef.Some? then Ok(result.artifactRef.value) else Err(Fault);
    var review := Review(artifactRef, result.reportRef, r.subject, r.actor, Digest(SubjectChainOf(chain)), 1, verdict);
    Ok(Reduced(s.(reviews := s.reviews[reviewRef := review]), [ReviewRecorded(reviewRef)], ReviewedAs(reviewRef)))
  }

  // AdvanceGoal ---------------------------------------------------------------------------------------------

  /** The dispositions a review and a result allow for a goal. */
  predicate MayAdvance(goal: Goal, outcome: Outcome, review: Review, to: GoalState) {
    match to
    case Done => outcome == PassOutcome && review.verdict == PassVerdict
    case Failed => outcome == FailedOutcome && review.verdict in {PassVerdict, LimitationVerdict}
    case Limited => review.verdict == LimitationVerdict
    case Skipped => goal.requirement == Optional && review.verdict == LimitationVerdict
                    && outcome in {LimitationOutcome, UnverifiableOutcome}
    case _ => false
  }

  /** `next_goal_requirement`, absent meaning required. */
  function NextRequirementOf(resolved: map<Field, Str>): Option<Requirement> {
    match Find(resolved, NextRequirement)
    case None => Some(Required)
    case Some(t) =>
      if t == Text("required") then Some(Required) else if t == Text("optional") then Some(Optional) else None
  }

  /** `next_max_attempts`, absent meaning one. */
  function NextMaxAttemptsOf(resolved: map<Field, Str>): Option<int> {
    match Find(resolved, NextMaxAttempts)
    case None => Some(1)
    case Some(n) => if n.Num? then Some(n.number) else None
  }

  predicate DescribesNext(r: Request, p: Plan, chain: Chain, goalId: Str, slice: Str) {
    && AllocatesChain(r.allocate, chain)
    && Find(r.resolved, NextGoalId) == Some(goalId) && Find(r.resolved, NextSlice) == Some(slice)
    && Find(r.resolved, ProviderTarget) == Some(chain.providerTarget)
    && Find(r.resolved, PlanDigest) == Some(p.planDigest) && Find(r.resolved, IndexDigest) == Some(p.indexDigest)
    && Find(r.resolved, WorkspaceIdentity) == Some(p.workspace)
    && NextRequirementOf(r.resolved).Some?
    && NextMaxAttemptsOf(r.resolved).Some? && 1 <= NextMaxAttemptsOf(r.resolved).value <= 3
  }

  predicate MaterializesNext(r: Request, s: Snapshot, chain: Chain) {
    && NextObjective in r.resolved && Is64(r.resolved[NextObjective])
    && RequestDigest in r.resolved && Is64(r.resolved[RequestDigest])
    && BASELINE_FIELDS <= r.resolved.Keys && r.resolved[ArtifactProfile] in PROFILES
    && chain.goalRef !in s.goals && chain.attemptRef !in s.attempts && chain.effectRef !in s.effects
  }

  function ResolvedBaseline(r: Request): Baseline
    requires BASELINE_FIELDS <= r.resolved.Keys
  {
    Baseline(r.resolved[BaselineBlob], r.resolved[ArtifactProfile], r.resolved[WorkspaceIdentity])
  }

  /** Creates the goal after the active one, with its attempt and effect; `s` already has the advanced goal. */
  function NextGoal(s: Snapshot, r: Request, from: Str, to: GoalState): Result<(Snapshot, Str)>
    requires 0 <= s.plan.activeIndex && s.plan.activeIndex + 1 < |s.plan.ids| == |s.plan.slices|
  {
    var p := s.plan;
    var next := p.activeIndex + 1;
    var chain := GoalChain(s.loopRef, p.planDigest, p.ids[next], p.slices[next]);
    :- Need(NextMaxAttemptsOf(r.resolved).Some?, InvalidCommand);
    :- Need(DescribesNext(r, p, chain, p.ids[next], p.slices[next]), InvalidTransition);
    :- Need(MaterializesNext(r, s, chain), InvalidCommand);
    var goal := Goal(chain, Some(from), p.ids[next], p.slices[next], NextMaxAttemptsOf(r.resolved).value,
                     r.resolved[NextObjective], next, NextRequirementOf(r.resolved).value, 1, Active);
    var request := ProviderRequest(next, r.resolved[BaselineBlob], p.ids[next], p.slices[next], p.planDigest,
                                   p.indexDigest, Following(to), chain.providerTarget, p.workspace);
    var effect := NewEffectRecord(chain, CREATE_TASK, Some(ResolvedBaseline(r)));
    var attempt := NewAttemptRecord(r, chain, CREATE_TASK, next + 1, request, r.resolved[RequestDigest]);
    Ok((s.(goals := s.goals[chain.goalRef := goal],
           effects := s.effects[chain.effectRef := effect],
           attempts := s.attempts[chain.attemptRef := attempt],
           plan := p.(activeGoalRef := chain.goalRef, activeIndex := next)), chain.goalRef))
  }

  /** `_advance_goal` */
  function AfterAdvance(s: Snapshot, r: Request, to: GoalState): Result<Reduced> {
    var reviewRef :- Bound(r.resolved, ReviewBinding);
    :- Need(r.subject in s.goals && reviewRef in s.reviews, InvalidTransition);
    var goal := s.goals[r.subject];
    var review := s.reviews[reviewRef];
    :- Need(review.resultRef in s.results, InvalidTransition);
    var result := s.results[review.resultRef];
    :- Need(goal.state == Active, InvalidTransition);
    :- Need(result.state == Acknowledged && review.reportRef == result.reportRef
            && Some(review.artifactRef) == result.artifactRef, InvalidTransition);
    :- Need(result.effectRef in s.effects, InvalidTransition);
    :- Need(result.goalRef == r.subject && s.effects[result.effectRef].goalRef == r.subject, InvalidTransition);
    :- Need(MayAdvance(goal, result.outcome, review, to), InvalidTransition);
    Settle(s, r, to)
  }

  /** The rest of `_advance_goal`, once a reviewed result justifies the disposition. */
  function Settle(s: Snapshot, r: Request, to: GoalState): Result<Reduced>
    requires r.subject in s.goals
  {
    var goal := s.goals[r.subject];
    var advanced := s.(goals := s.goals[r.subject := goal.(revision := goal.revision + 1, state := to)]);
    var p := s.plan;
    if to !in {Done, Skipped} then
      Ok(Reduced(advanced, [GoalAdvanced(r.subject)], AdvancedTo(to, None)))
    else
      :- Need(0 <= p.activeIndex < |p.ids| && |p.ids| == p.goalCount && |p.slices| == |p.ids|
              && p.activeGoalRef == r.subject, InternalInvariantViolation);
      var skipped := if to == Skipped then [GoalSkipped(r.subject)] else [];
      if p.activeIndex + 1 == |p.ids| then
        Ok(Reduced(advanced, [GoalAdvanced(r.subject)] + skipped, AdvancedTo(to, None)))
      else
        var next :- NextGoal(advanced, r, r.subject, to);
        var (moved, goalRef) := next;
        Ok(Reduced(moved,
                   [GoalAdvanced(r.subject), GoalRegistered(goalRef), GoalActivated(goalRef),
                    ExternalEffectPrepared(moved.goals[goalRef].chain.effectRef)] + skipped,
                   AdvancedTo(to, Some(goalRef))))
  }

  // RecordPolicyDecision ------------------------------------------------------------------------------------

  /** `policy_context`: what a human decision was shown. */
  function PolicyContextOf(s: Snapshot, latest: set<Str> -> Option<Str>): PolicyContext {
    var active := Only(ActiveGoals(s.goals));
    var goalRef := if active.Some? then active else latest(s.goals.Keys);
    var artifactRef := if active.Some? then Some(s.goals[active.value].chain.artifactRef) else latest(s.artifacts.Keys);
    var reviewRef := if active.Some? then Some(s.goals[active.value].chain.reviewRef) else latest(s.reviews.Keys);
    PolicyContext(
      s.loopRef, s.loopRevision, s.execution.revision, ExecutionStatus(s.execution.state),
      if goalRef.Some? && goalRef.value in s.goals then
        Some(ContextEntry(goalRef.value, s.goals[goalRef.value].revision, GoalStatus(s.goals[goalRef.value].state)))
      else None,
      if artifactRef.Some? && artifactRef.value in s.artifacts then
        Some(ContextEntry(artifactRef.value, s.artifacts[artifactRef.value].revision,
                          ArtifactStatus(s.artifacts[artifactRef.value].verified)))
      else None,
      if reviewRef.Some? && reviewRef.value in s.reviews then
        Some(ContextEntry(reviewRef.value, s.reviews[reviewRef.value].revision,
                          ReviewStatus(s.reviews[reviewRef.value].verdict)))
      else None)
  }

  const INITIAL_POLICY := Policy(0, 0, 0, Idle, None, None, None, None)

  function RepairBudgets(resolved: map<Field, Str>): Result<(int, int)> {
    var repair :- Bound(resolved, RepairBudget);
    :- Need(repair.Num?, InvalidCommand);
    var same :- Bound(resolved, SameFailureBudget);
    :- Need(same.Num?, InvalidCommand);
    :- Need(1 <= repair.number <= 3 && 1 <= same.number <= 2, InvalidCommand);
    Ok((repair.number, same.number))
  }

  /** The allocation a repair must carry, exactly. */
  function RepairAllocation(chain: Chain): map<Slot, Str> {
    map[NewArtifact := chain.artifactRef, NewAttempt := chain.attemptRef, NewEffect := chain.effectRef,
        NewHost := chain.hostRef, NewReport := chain.reportRef, NewResult := chain.resultRef,
        NewReview := chain.reviewRef, ProviderIdempotencyKey := chain.providerKey]
  }

  predicate MaterializesRepair(s: Snapshot, r: Request, chain: Chain) {
    && BASELINE_FIELDS <= r.resolved.Keys && {RequestDigest, TargetRef} <= r.resolved.Keys
    && r.resolved[TargetRef] == chain.hostRef
    && r.resolved[WorkspaceIdentity] == s.plan.workspace
    && r.resolved[ArtifactProfile] in PROFILES
    && Is64(r.resolved[BaselineBlob]) && Is64(r.resolved[RequestDigest]) && Is64(r.resolved[WorkspaceIdentity])
    && chain.attemptRef !in s.attempts && chain.effectRef !in s.effects
  }

  /** Schedules the repair chain of the active goal: new chain references, one new effect and attempt. */
  function ScheduleRepair(s: Snapshot, r: Request, goalRef: Str, ordinal: nat): Result<(Snapshot, Chain)>
    requires goalRef in s.goals
  {
    var goal := s.goals[goalRef];
    var chain := RepairChain(RepairIdentity(s.loopRef, s.plan.planDigest, goalRef, goal.goalId, ordinal));
    :- Need(r.allocate == RepairAllocation(chain), InvalidCommand);
    :- Need(MaterializesRepair(s, r, chain), InvalidCommand);
    var request := ProviderRequest(s.plan.activeIndex, r.resolved[BaselineBlob], goal.goalId, goal.slice,
                                   s.plan.planDigest, s.plan.indexDigest, Repaired, chain.providerTarget,
                                   s.plan.workspace);
    var effect := NewEffectRecord(chain, CREATE_TASK, Some(ResolvedBaseline(r)));
    var attempt := NewAttemptRecord(r, chain, CREATE_TASK, |s.attempts| + 1, request, r.resolved[RequestDigest]);
    Ok((s.(goals := s.goals[goalRef := goal.(chain := chain)],
           effects := s.effects[chain.effectRef := effect],
           attempts := s.attempts[chain.attemptRef := attempt]), chain))
  }

  /** Repair counters belong to one goal; deciding about another goal starts them again. */
  function CountersFor(prior: Policy, goalRef: Str): Policy {
    if prior.goalRef == Some(goalRef) then prior
    else prior.(goalRef := Some(goalRef), lastFailure := None, repairAttempts := 0, sameFailures := 0)
  }

  function SameFailures(policy: Policy, failure: Str): nat {
    if policy.lastFailure == Some(failure) then policy.sameFailures + 1 else 1
  }

  function RecordRepair(policy: Policy, card: Str, failure: Str, attempts: nat, state: PolicyState): Policy {
    policy.(card := Some(card), revision := policy.revision + 1, lastDecision := Some(ContinueRepair),
            lastFailure := Some(failure), sameFailures := SameFailures(policy, failure), repairAttempts := attempts,
            state := state)
  }

  /** The current chain has a REPAIR review, and the failure is named. */
  predicate RepairWanted(s: Snapshot, goal: Goal, fingerprint: string) {
    && goal.chain.reviewRef in s.reviews && s.reviews[goal.chain.reviewRef].verdict == RepairVerdict
    && fingerprint != ""
  }

  /** `_record_policy_decision`, the CONTINUE_REPAIR branch. */
  function AfterContinueRepair(s: Snapshot, r: Request, prior: Policy, fingerprint: string, card: Str): Result<Reduced> {
    var active := Only(ActiveGoals(s.goals));
    :- Need(active.Some? && RepairWanted(s, s.goals[active.value], fingerprint), InvalidTransition);
    var policy := CountersFor(prior, active.value);
    var budgets :- RepairBudgets(r.resolved);
    var failure := Digest(Fingerprint(fingerprint));
    if policy.repairAttempts >= budgets.0 || SameFailures(policy, failure) >= budgets.1 then
      Ok(Reduced(s.(policy := Some(RecordRepair(policy, card, failure, policy.repairAttempts, Exhausted))),
                 [HumanDecisionRecorded(ContinueRepair), RepairExhausted],
                 DecidedAs(ContinueRepair, Some(Exhausted))))
    else
      AfterAuthorizedRepair(s, r, active.value, policy, card, failure)
  }

  function AfterAuthorizedRepair(s: Snapshot, r: Request, goalRef: Str, policy: Policy, card: Str, failure: Str)
    : Result<Reduced>
    requires goalRef in s.goals
  {
    var ordinal := policy.repairAttempts + 1;
    var events := [HumanDecisionRecorded(ContinueRepair), RepairAuthorized(ordinal)];
    if r.allocate == map[] then
      Ok(Reduced(s.(policy := Some(RecordRepair(policy, card, failure, ordinal, Authorized))), events,
                 DecidedAs(ContinueRepair, Some(Authorized))))
    else
      var scheduled :- ScheduleRepair(s, r, goalRef, ordinal);
      Ok(Reduced(scheduled.0.(policy := Some(RecordRepair(policy, card, failure, ordinal, RepairScheduled))),
                 events + [RepairAttemptScheduled(scheduled.1.attemptRef, goalRef)],
                 DecidedAs(ContinueRepair, Some(RepairScheduled))))
  }

  /** `_record_policy_decision` */
  function AfterDecision(s: Snapshot, r: Request, ctx: Context, decision: Decision, fingerprint: string)
    : Result<Reduced>
  {
    if |fingerprint| > 512 then Err(Rejected(InvalidCommand)) else
    var context :- Bound(r.resolved, ContextDigest);
    var card :- Bound(r.resolved, DecisionCard);
    :- Need(context == Digest(HumanContext(PolicyContextOf(s, ctx.latest))) && Truthy(card), StaleSubjectRevision);
    var prior := if s.policy.Some? then s.policy.value else INITIAL_POLICY;
    if decision == ContinueRepair then AfterContinueRepair(s, r, prior, fingerprint, card)
    else
      var policy := prior.(card := Some(card), revision := prior.revision + 1, lastDecision := Some(decision),
                           state := ExecutionPending);
      Ok(Reduced(s.(policy := Some(policy)), [HumanDecisionRecorded(decision)], DecidedAs(decision, None)))
  }

  // PauseLoop, ResumeLoop, StopLoop --------------------------------------------------------------------------

  predicate ValidReason(reason: string) { !Blank(reason) && |reason| <= 512 }

  /** `_pause_loop` */
  function AfterPause(s: Snapshot, reason: string, wait: Option<WaitKind>): Result<Reduced> {
    if s.execution.state != Running then Err(Rejected(InvalidTransition)) else
    :- Need(ValidReason(reason), InvalidCommand);
    var digest := Digest(ReasonText("loopskill-pause-reason-v1\n", reason));
    var paused := s.execution.(pauseReason := Some(digest), revision := s.execution.revision + 1, state := Paused,
                               wait := if wait.Some? then wait else s.execution.wait);
    Ok(Reduced(s.(execution := paused),
               (if wait == Some(WaitBudget) then [BudgetWaiting] else []) + [LoopPaused(digest)],
               NowIn(Paused)))
  }

  const MAX_INVOCATIONS := 384
  const MAX_SECONDS := 2_592_000

  predicate ValidExtension(b: Budget, f: ResumeFields)
    requires f.BudgetFields?
  {
    && b.invocations <= f.invocations <= MAX_INVOCATIONS
    && b.seconds <= f.seconds <= MAX_SECONDS
    && (f.invocations != b.invocations || f.seconds != b.seconds)
    && IsHex64(f.reason)
  }

  /** The plan after a runtime budget extension, and the digest that names it. */
  function ExtendBudget(s: Snapshot, f: ResumeFields): Result<(Plan, Str)>
    requires f.BudgetFields?
  {
    if !ValidExtension(s.plan.budget, f) then Err(Rejected(InvalidCommand)) else
    var prior := Digest(RuntimeBudget(s.plan.budget.invocations, s.plan.budget.seconds));
    :- Need(f.prior == prior, StaleSubjectRevision);
    var digest := Digest(BudgetExtension(s.loopRef, f.invocations, f.seconds, prior, f.reason));
    var revision := if s.plan.extension.Some? then s.plan.extension.value.revision else 0;
    Ok((s.plan.(budget := s.plan.budget.(invocations := f.invocations, seconds := f.seconds),
                extension := Some(Extension(digest, f.reason, revision + 1))), digest))
  }

  /** `_resume_loop` */
  function AfterResume(s: Snapshot, fields: ResumeFields): Result<Reduced> {
    if s.execution.state != Paused then Err(Rejected(InvalidTransition)) else
    var resumed := s.execution.(pauseReason := None, wait := None, revision := s.execution.revision + 1,
                                state := Running);
    var wait := s.execution.wait;
    if wait == Some(WaitBudget) then
      :- Need(fields.BudgetFields?, InvalidCommand);
      var extended :- ExtendBudget(s, fields);
      Ok(Reduced(s.(execution := resumed, plan := extended.0), [BudgetExtended(extended.1), LoopResumed], NowIn(Running)))
    else if wait in {Some(WaitHuman), Some(WaitTime)} then
      :- Need(fields.GateEvidence? && IsHex64(fields.gate), InvalidCommand);
      Ok(Reduced(s.(execution := resumed), [ControllerGateSatisfied(fields.gate), LoopResumed], NowIn(Running)))
    else
      :- Need(fields == NoFields, InvalidCommand);
      Ok(Reduced(s.(execution := resumed), [LoopResumed], NowIn(Running)))
  }

  /** `_stop_loop` */
  function AfterStop(s: Snapshot, reason: string): Result<Reduced> {
    if s.execution.state !in {Running, Paused} then Err(Rejected(InvalidTransition)) else
    :- Need(ValidReason(reason), InvalidCommand);
    var active := Only(ActiveGoals(s.goals));
    :- Need(active.Some?, InvalidTransition);
    var goal := s.goals[active.value];
    var digest := Digest(ReasonText("loopskill-stop-reason-v1\n", reason));
    Ok(Reduced(
      s.(goals := s.goals[active.value := goal.(revision := goal.revision + 1, state := Halted)],
         execution := s.execution.(disposition := Some(Stopped), revision := s.execution.revision + 1,
                                   state := Terminal, stopReason := Some(digest)),
         closure := Closure(Local, None, None, s.closure.revision + 1)),
      [GoalAdvanced(active.value), LoopStopped(digest)], NowIn(Terminal)))
  }

  // ReviseGoalPlan ------------------------------------------------------------------------------------------

  /** The id-to-slice pairing of a plan, as a dictionary. */
  function Pairing(ids: seq<Str>, slices: seq<Str>): map<Str, Str> {
    if ids == [] || slices == [] then map[]
    else Pairing(ids[..|ids| - 1], slices[..|slices| - 1])[ids[|ids| - 1] := slices[|slices| - 1]]
  }

  function Elements(ids: seq<Str>): set<Str> { set i | 0 <= i < |ids| :: ids[i] }

  function PositionOf(ids: seq<Str>, id: Str): nat
    requires id in ids
    ensures PositionOf(ids, id) < |ids| && ids[PositionOf(ids, id)] == id
  {
    if ids[|ids| - 1] == id then |ids| - 1 else PositionOf(ids[..|ids| - 1], id)
  }

  predicate ValidRevision(p: Plan, ids: seq<Str>, slices: seq<Str>, indexDigest: Str, revision: int, reason: string) {
    && |ids| == |p.ids| && |slices| == |p.slices|
    && -1 <= p.activeIndex < |p.ids| && p.activeIndex < |p.slices|
    && ids[..p.activeIndex + 1] == p.ids[..p.activeIndex + 1]
    && slices[..p.activeIndex + 1] == p.slices[..p.activeIndex + 1]
    && Elements(ids) == Elements(p.ids) && Distinct(ids)
    && Pairing(ids, slices) == Pairing(p.ids, p.slices)
    && revision == p.revision + 1 && revision < p.maxRevisions
    && Is64(indexDigest) && ValidReason(reason)
  }

  /** Every goal whose id is listed gets its position in the list. */
  function Reordered(goals: map<Str, Goal>, ids: seq<Str>): map<Str, Goal> {
    map g | g in goals :: if goals[g].goalId in ids then goals[g].(order := PositionOf(ids, goals[g].goalId)) else goals[g]
  }

  /** `_revise_goal_plan` on a content-addressed plan. */
  function AfterRevise(s: Snapshot, ids: seq<Str>, slices: seq<Str>, indexDigest: Str, revision: int, reason: string)
    : Result<Reduced>
  {
    if !s.plan.adaptive then Err(Rejected(InvalidTransition)) else
    :- Need(ValidRevision(s.plan, ids, slices, indexDigest, revision, reason), InvalidCommand);
    Ok(Reduced(s.(goals := Reordered(s.goals, ids), plan := s.plan.(ids := ids, slices := slices, indexDigest := indexDigest,
                                                  revision := revision)),
               [RoadmapRevised(revision)], RevisedTo(revision)))
  }

  // PrepareFinalization, CloseExecution, StrengthenClosureAssurance ------------------------------------------

  function ReviewsOf(s: Snapshot, resultRef: Str): set<Str> {
    set v | v in s.reviews && s.reviews[v].resultRef == resultRef
  }

  /** `_final_chain` */
  function FinalChain(s: Snapshot): Result<SubjectChain> {
    var chain :- ResultChain(s);
    var reviewRef := Only(ReviewsOf(s, chain.result.ref));
    :- Need(reviewRef.Some?, InternalInvariantViolation);
    Ok(chain.(review := Some(Versioned(reviewRef.value, s.reviews[reviewRef.value].revision))))
  }

  predicate Finished(g: Goal) { g.state != Active }

  predicate SomeSkipped(goals: map<Str, Goal>) { exists g :: g in goals && goals[g].state == Skipped }

  /** Whether the current chain supports a disposition. */
  function CheckDisposition(s: Snapshot, goal: Goal, result: ResultRec, review: Review, effect: Effect, d: Disposition): Check {
    match d
    case Succeeded =>
      Need(goal.state == Done && result.outcome == PassOutcome && review.verdict == PassVerdict
           && effect.state == Observed, FinalizationPreconditionFailed)
    case SucceededWithLimitations =>
      Need(SomeSkipped(s.goals) && goal.state in {Done, Skipped} && effect.state == Observed,
           FinalizationPreconditionFailed)
    case Failure => Need(goal.state == Failed && result.outcome == FailedOutcome, FinalizationPreconditionFailed)
    case Limitation => Need(goal.state != Failed, FinalizationPreconditionFailed)
    case Stopped => Check.Stop(Rejected(InvalidCommand))
  }

  /** `_prepare_finalization` */
  function AfterPrepare(s: Snapshot, r: Request, d: Disposition): Result<Reduced> {
    var chain :- FinalChain(s);
    var review :- Get(s.reviews, chain.review.value.ref);
    var goal :- Get(s.goals, chain.goal.ref);
    :- Need(forall g :: g in s.goals ==> Finished(s.goals[g]), FinalizationPreconditionFailed);
    var result :- Get(s.results, chain.result.ref);
    :- Need(goal.state in {Done, Skipped, Failed, Limited}, FinalizationPreconditionFailed);
    var effect :- Get(s.effects, chain.effect.ref);
    :- CheckDisposition(s, goal, result, review, effect, d);
    var finalizationRef :- Bound(r.allocate, NewFinalization);
    var finalization := Finalization(
      chain.artifact.ref, result.attemptRef, result.effectRef, chain.goal.ref, result.reportRef, chain.result.ref,
      chain.review.value.ref, Digest(SubjectChainOf(chain)), d, NoStrength, false, 1);
    Ok(Reduced(s.(finalizations := s.finalizations[finalizationRef := finalization],
                  execution := s.execution.(revision := s.execution.revision + 1, state := Finalizing)),
               [FinalizationPrepared(finalizationRef)], PreparedAs(finalizationRef)))
  }

  /** The receipt that closes a finalization, and whether it is strict evidence. */
  function ClosingEvidence(s: Snapshot, r: Request, ctx: Context, finalization: Finalization): Result<(Receipt, bool)> {
    var receipt :- ReceiptFor(r, ctx, About(LIFECYCLE_READBACK, r.subject, None, None, Some(finalization.chainDigest)));
    var chain :- FinalChain(s);
    :- Need(Digest(SubjectChainOf(chain)) == finalization.chainDigest, FinalizationPreconditionFailed);
    var strict := receipt.trust == StrictTrust && receipt.outcome == SeenAcknowledged;
    :- Need(finalization.disposition in {Succeeded, SucceededWithLimitations} ==> strict,
            FinalizationPreconditionFailed);
    Ok((receipt, strict))
  }

  /** `_close_execution` */
  function AfterClose(s: Snapshot, r: Request, ctx: Context): Result<Reduced> {
    var finalization :- Get(s.finalizations, r.subject);
    :- Need(!finalization.closed, InvalidTransition);
    var evidence :- ClosingEvidence(s, r, ctx, finalization);
    var (receipt, strict) := evidence;
    var strength := if strict then Strict else Cooperative;
    Ok(Reduced(
      s.(finalizations := s.finalizations[r.subject := finalization.(strength := strength, closed := true,
                                                                     revision := finalization.revision + 1)],
         execution := s.execution.(disposition := Some(finalization.disposition),
                                   revision := s.execution.revision + 1, state := Terminal),
         closure := Closure(strength, Some(r.subject), Some(receipt.ref), 1)),
      [ExecutionFinalized(r.subject)] + (if strict then [StrictFinalizationAcknowledged(r.subject)] else []),
      ClosedAs(strength, finalization.disposition)))
  }

  /** `_strengthen_closure_assurance` */
  function AfterStrengthen(s: Snapshot, r: Request, ctx: Context): Result<Reduced> {
    var finalization :- Get(s.finalizations, r.subject);
    :- Need(s.execution.state == Terminal && finalization.closed && finalization.strength == Cooperative
            && s.closure.strength == Cooperative && s.closure.finalizationRef == Some(r.subject), InvalidTransition);
    var receipt :- ReceiptFor(r, ctx, About(LIFECYCLE_READBACK, r.subject, None, None, Some(finalization.chainDigest)));
    :- Need(receipt.trust == StrictTrust && receipt.outcome == SeenAcknowledged, FinalizationPreconditionFailed);
    Ok(Reduced(
      s.(finalizations := s.finalizations[r.subject := finalization.(strength := Strict,
                                                                     revision := finalization.revision + 1)],
         closure := Closure(Strict, Some(r.subject), Some(receipt.ref), s.closure.revision + 1)),
      [ClosureAssuranceStrengthened(r.subject), StrictFinalizationAcknowledged(r.subject)],
      ClosedAs(Strict, finalization.disposition)))
  }

  // Dispatch ------------------------------------------------------------------------------------------------

  function Dispatch(s: Snapshot, r: Request, ctx: Context): Result<Reduced> {
    match r.payload
    case Create(c) => AfterCreate(Some(s), r, ctx, c)
    case Observe => AfterObserve(s, r, ctx)
    case Stage(outcome, summary) => AfterStage(s, r, outcome, summary)
    case Acknowledge => AfterAcknowledge(s, r, ctx)
    case Judge(verdict) => AfterReview(s, r, verdict)
    case Decide(decision, fingerprint) => AfterDecision(s, r, ctx, decision, fingerprint)
    case Advance(to) => AfterAdvance(s, r, to)
    case Pause(reason, wait) => AfterPause(s, reason, wait)
    case Resume(fields) => AfterResume(s, fields)
    case Revise(ids, slices, index, revision, reason) => AfterRevise(s, ids, slices, index, revision, reason)
    case StopNow(reason) => AfterStop(s, reason)
    case Prepare(d) => AfterPrepare(s, r, d)
    case Close => AfterClose(s, r, ctx)
    case Strengthen => AfterStrengthen(s, r, ctx)
  }

  /** `reduce_command` */
  function Reduce(s: Option<Snapshot>, c: Command, ctx: Context): Result<Reduced> {
    var r := c.request;
    :- ValidateCommand(c);
    :- ValidateAuthority(r, ctx, s);
    :- Need(s.Some? || r.payload.Create?, InvalidTransition);
    :- ValidateReferences(s, r);
    var reduced :- if s.None? then AfterCreate(None, r, ctx, r.payload.startup) else Dispatch(s.value, r, ctx);
    :- Need(|reduced.events| <= MAX_EVENTS_PER_COMMAND, ResourceLimitExceeded);
    Ok(reduced.(snapshot := reduced.snapshot.(loopRevision := r.expectedRevision + 1)))
  }
}
