/** What it takes to create, finalise and close a loop and to strengthen its closure, and what these commands put on
    record. */
module Closing {
  import opened Base
  import opened Records
  import opened Commands
  import opened Authority
  import opened Kernel
  import opened Permissions
  import opened Transitions
  import opened PlanProgress
  import opened StorageMode
  import opened Evidence
  import opened Steering

  // CreateLoop -------------------------------------------------------------------------------------------------

  /** An objective that is not blank, the one goal of the legacy list, and one revision more than the reorderings of an
      adaptive plan. */
  predicate StatesObjective(c: Startup) {
    && (exists i :: 0 <= i < |c.objective| && !IsSpace(c.objective[i]))
    && |c.goalPlan| == 1 && Strip(c.goalPlan[0]) == Strip(c.objective)
    && (exists i :: 0 <= i < |c.goalPlan[0]| && !IsSpace(c.goalPlan[0][i]))
    && (if c.adaptive then 1 <= c.maxRevisions <= 17 else c.maxRevisions == 1)
  }

  /** A complete plan of at most 128 goals (32 in version 1) with distinct ids, at its first goal, that fits its budget. */
  predicate StatesPlan(c: Startup) {
    && c.complete && 1 <= c.goalCount <= (if c.capacity == CapacityV2 then 128 else 32)
    && (c.capacity == CapacityV1 || c.capacity == CapacityV2)
    && |c.ids| == |c.slices| == c.goalCount && NoRepeats(c.ids) && c.activeIndex == 0 && c.planRevision == 0
    && c.goalId == c.ids[0] && c.slice == c.slices[0]
    && (forall i :: 0 <= i < |c.slices| ==> Is64(c.slices[i]))
    && Is64(c.planDigest) && Is64(c.indexDigest) && Is64(c.authority) && Is64(c.workspace) && Is64(c.stopPolicy)
    && c.goalCount <= c.invocations && 1 <= c.seconds && 0 <= c.cost
    && (if c.capacity == CapacityV1 then c.requirement == Required && c.maxAttempts == 1 else 1 <= c.maxAttempts <= 3)
  }

  /** The command allocates the chain of the first goal and aims at its target. */
  predicate AllocatesFirst(r: Request, chain: Chain) {
    var a := r.allocate;
    && {NewAttempt, NewEffect, NewGoal, NewHost, ProviderIdempotencyKey} <= a.Keys
    && a[NewAttempt] == chain.attemptRef && a[NewEffect] == chain.effectRef && a[NewGoal] == chain.goalRef
    && a[NewHost] == chain.hostRef && a[ProviderIdempotencyKey] == chain.providerKey
    && TargetRef in r.resolved && r.resolved[TargetRef] == chain.providerTarget
  }

  /** A strict, observed confirmation of the prepared bundle, for this manifest and boundary. */
  predicate ConfirmsStart(r: Request, ctx: Context) {
    var f := r.resolved;
    && {PreparedManifest, BoundaryDigest, PreparedBundle} <= f.Keys
    && f[PreparedManifest] != Text("") && f[BoundaryDigest] != Text("") && f[PreparedBundle] != Text("")
    && ReceiptStands(r, ctx)
    && var receipt := ctx.receipts[r.receipt.value];
       && Attests(receipt, r.loop, Text("confirm_start"), r.loop)
       && receipt.target == Some(f[BoundaryDigest]) && receipt.request == Some(f[PreparedManifest])
       && receipt.trust == StrictTrust && receipt.outcome == SeenObserved && receipt.evidence == f[PreparedBundle]
  }

  /** An artifact baseline is given whole, with a known profile, or not at all. */
  predicate BaselineIsWhole(f: map<Field, Str>) {
    || (BaselineBlob !in f && ArtifactProfile !in f && WorkspaceIdentity !in f)
    || (&& BaselineBlob in f && ArtifactProfile in f && WorkspaceIdentity in f
        && f[ArtifactProfile] in {Text("existing_git"), Text("non_git"), Text("new_git")})
  }

  predicate MayCreate(r: Request, ctx: Context, c: Startup) {
    && r.expectedRevision == 0 && StatesObjective(c) && StatesPlan(c)
    && AllocatesFirst(r, GoalChain(r.loop, c.planDigest, c.goalId, c.slice)) && ConfirmsStart(r, ctx)
    && BaselineIsWhole(r.resolved)
    && ProviderAction in r.resolved && r.resolved[ProviderAction] != Text("")
    && RequestDigest in r.resolved && Is64(r.resolved[RequestDigest])
  }

  lemma ObjectiveExactly(c: Startup)
    ensures ValidObjective(c) <==> StatesObjective(c)
  {
    hide IsSpace, Strip;
  }

  lemma PlanExactly(c: Startup)
    ensures ValidPlanIdentity(c) <==> StatesPlan(c)
  {
    hide Is64, NoRepeats, Distinct;
    if Distinct(c.ids) { DistinctMeansNoRepeats(c.ids); }
    if NoRepeats(c.ids) { NoRepeatsMeansDistinct(c.ids); }
  }

  lemma ConfirmationIsStrict(r: Request, ctx: Context)
    ensures StartupReceipt(r, ctx).Ok? <==> ProviderAction in r.resolved && TargetRef in r.resolved && ConfirmsStart(r, ctx)
    ensures StartupReceipt(r, ctx).Ok? ==>
              StartupReceipt(r, ctx).value
              == StartAuthorization(r.resolved[BoundaryDigest], r.resolved[PreparedBundle], r.resolved[PreparedManifest],
                                    ctx.receipts[r.receipt.value].ref)
  {
    hide ReceiptFor;
    ReceiptExactly(r, ctx, About(CONFIRM_START, r.loop, None, Find(r.resolved, BoundaryDigest),
                                 Find(r.resolved, PreparedManifest)));
    assert {PreparedManifest, BoundaryDigest, PreparedBundle} <= r.resolved.Keys
           <==> PreparedManifest in r.resolved && BoundaryDigest in r.resolved && PreparedBundle in r.resolved;
  }

  lemma BaselineIsExact(r: Request)
    ensures StartupBaseline(r).Ok? <==> BaselineIsWhole(r.resolved)
    ensures BaselineIsWhole(r.resolved) ==>
              StartupBaseline(r).value
              == if BaselineBlob in r.resolved then
                   Some(Baseline(r.resolved[BaselineBlob], r.resolved[ArtifactProfile], r.resolved[WorkspaceIdentity]))
                 else None
  {
    var f := r.resolved;
    assert f.Keys !! BASELINE_FIELDS <==> BaselineBlob !in f && ArtifactProfile !in f && WorkspaceIdentity !in f by {
      if BaselineBlob !in f && ArtifactProfile !in f && WorkspaceIdentity !in f {
        forall k | k in BASELINE_FIELDS ensures k !in f.Keys {}
      } else {
        assert exists k :: k in BASELINE_FIELDS && k in f.Keys;
      }
    }
    assert BASELINE_FIELDS <= f.Keys <==> BaselineBlob in f && ArtifactProfile in f && WorkspaceIdentity in f;
  }

  lemma AllocationOfFirst(r: Request, chain: Chain)
    ensures AllocatesChain(r.allocate, chain) && Find(r.resolved, TargetRef) == Some(chain.providerTarget)
            <==> AllocatesFirst(r, chain)
  {
  }

  /** A loop is created exactly by a confirmed, complete plan whose first chain the command allocates. */
  lemma CreateIsAllowed(r: Request, ctx: Context, c: Startup)
    ensures AfterCreate(None, r, ctx, c).Ok? <==> MayCreate(r, ctx, c)
  {
    hide ValidObjective, ValidPlanIdentity, StatesObjective, StatesPlan, GoalChain, AllocatesChain, AllocatesFirst,
         StartupReceipt, StartupBaseline, ConfirmsStart, BaselineIsWhole, Is64, InitialGoal, InitialPlan, NewEffectRecord,
         NewAttemptRecord;
    ObjectiveExactly(c);
    PlanExactly(c);
    AllocationOfFirst(r, GoalChain(r.loop, c.planDigest, c.goalId, c.slice));
    AllocatesGoal(r, GoalChain(r.loop, c.planDigest, c.goalId, c.slice));
    BaselineIsExact(r);
    ConfirmationIsStrict(r, ctx);
  }

  lemma AllocatesGoal(r: Request, chain: Chain)
    ensures AllocatesFirst(r, chain) ==> NewGoal in r.allocate && r.allocate[NewGoal] == chain.goalRef && TargetRef in r.resolved
  {
  }

  /** The plan as it was confirmed, resting on its first goal; that goal, active; nothing else but its launched chain. */
  predicate CreatedAs(r: Request, ctx: Context, c: Startup, u: Snapshot)
    requires MayCreate(r, ctx, c)
  {
    var chain, f := GoalChain(r.loop, c.planDigest, c.goalId, c.slice), r.resolved;
    && u.loopRef == r.loop && u.goals.Keys == {chain.goalRef}
    && u.goals[chain.goalRef]
       == Goal(chain, None, c.goalId, c.slice, c.maxAttempts, Digest(ObjectiveText(c.objective)), 0, c.requirement, 1,
               Active)
    && u.plan == Plan(chain.goalRef, 0, c.authority, Budget(c.cost, c.invocations, c.seconds), c.capacity, c.goalCount,
                      c.maxRevisions, c.adaptive, c.ids, c.slices, c.planDigest, c.indexDigest, 0, c.stopPolicy,
                      c.workspace, None)
    && u.start == Some(StartAuthorization(f[BoundaryDigest], f[PreparedBundle], f[PreparedManifest],
                                          ctx.receipts[r.receipt.value].ref))
  }

  predicate FirstLaunched(r: Request, c: Startup, u: Snapshot)
    requires BaselineIsWhole(r.resolved) && ProviderAction in r.resolved
  {
    var chain, f := GoalChain(r.loop, c.planDigest, c.goalId, c.slice), r.resolved;
    var baseline :=
      if BaselineBlob in f then Some(Baseline(f[BaselineBlob], f[ArtifactProfile], f[WorkspaceIdentity])) else None;
    && u.effects.Keys == {chain.effectRef} && u.attempts.Keys == {chain.attemptRef}
    && Launched(u, r, chain, f[ProviderAction], baseline, 1,
                ProviderRequest(0, if BaselineBlob in f then f[BaselineBlob] else Text("UNBOUND"), c.goalId, c.slice,
                                c.planDigest, c.indexDigest, First, chain.providerTarget, c.workspace))
  }

  lemma CreateIsRecorded(r: Request, ctx: Context, c: Startup, t: Reduced)
    requires AfterCreate(None, r, ctx, c) == Ok(t) && MayCreate(r, ctx, c)
    ensures CreatedAs(r, ctx, c, t.snapshot)
  {
    hide ValidObjective, ValidPlanIdentity, StatesObjective, StatesPlan, AllocatesChain, AllocatesFirst, GoalChain,
         StartupReceipt, StartupBaseline, BaselineIsWhole, Is64, NewEffectRecord, NewAttemptRecord, ReceiptStands, Attests;
    AllocatesGoal(r, GoalChain(r.loop, c.planDigest, c.goalId, c.slice));
    ConfirmationIsStrict(r, ctx);
  }

  lemma CreateIsLaunched(r: Request, ctx: Context, c: Startup, t: Reduced)
    requires AfterCreate(None, r, ctx, c) == Ok(t) && MayCreate(r, ctx, c)
    ensures FirstLaunched(r, c, t.snapshot)
  {
    hide ValidObjective, ValidPlanIdentity, StatesObjective, StatesPlan, AllocatesChain, AllocatesFirst, GoalChain,
         StartupReceipt, StartupBaseline, BaselineIsWhole, Is64, InitialGoal, InitialPlan, ConfirmsStart;
    BaselineIsExact(r);
  }

  // PrepareFinalization ----------------------------------------------------------------------------------------

  predicate SoleReview(s: Snapshot, resultRef: Str, v: Str) {
    && v in s.reviews && s.reviews[v].resultRef == resultRef
    && forall w :: w in s.reviews && s.reviews[w].resultRef == resultRef ==> w == v
  }

  /** The current chain, with the only review of its result. */
  predicate ReviewedChain(s: Snapshot, c: SubjectChain) {
    && CurrentChain(s, c.(review := None)) && c.review.Some? && SoleReview(s, c.result.ref, c.review.value.ref)
    && s.reviews[c.review.value.ref].revision == c.review.value.revision
  }

  lemma OnlyReview(s: Snapshot, resultRef: Str)
    ensures Only(ReviewsOf(s, resultRef)).Some? ==> SoleReview(s, resultRef, Only(ReviewsOf(s, resultRef)).value)
    ensures forall v :: SoleReview(s, resultRef, v) ==> Only(ReviewsOf(s, resultRef)) == Some(v)
  {
    if Only(ReviewsOf(s, resultRef)).Some? {
      var v := Only(ReviewsOf(s, resultRef)).value;
      assert v in ReviewsOf(s, resultRef);
      forall w | w in s.reviews && s.reviews[w].resultRef == resultRef ensures w == v { assert w in ReviewsOf(s, resultRef); }
    }
    forall v | SoleReview(s, resultRef, v) ensures Only(ReviewsOf(s, resultRef)) == Some(v) {
      assert ReviewsOf(s, resultRef) == {v};
    }
  }

  lemma UnreviewedChain(s: Snapshot, c: SubjectChain)
    requires CurrentChain(s, c)
    ensures c.review == None
  {
  }

  lemma FinalChainExactly(s: Snapshot, c: SubjectChain)
    ensures FinalChain(s) == Ok(c) <==> ReviewedChain(s, c)
  {
    hide ResultChain, CurrentChain, Only, ReviewsOf;
    ChainExactly(s, c.(review := None));
    OnlyReview(s, c.result.ref);
    if ResultChain(s).Ok? {
      ChainExactly(s, ResultChain(s).value);
      UnreviewedChain(s, ResultChain(s).value);
      OnlyReview(s, ResultChain(s).value.result.ref);
    }
  }

  lemma ReviewedChainRecords(s: Snapshot, c: SubjectChain)
    requires ReviewedChain(s, c)
    ensures c.review.Some? && c.review.value.ref in s.reviews && c.goal.ref in s.goals && c.result.ref in s.results
    ensures c.effect.ref in s.effects && c.effect.ref == s.results[c.result.ref].effectRef
    ensures c.attempt.ref == s.results[c.result.ref].attemptRef && c.report.ref == s.results[c.result.ref].reportRef
  {
  }

  /** What each disposition takes of the final goal, its result, review and effect: success, a passed goal with passing
      result and review of an observed effect; success with limitations, a skipped goal somewhere and a final goal that
      was passed or skipped, of an observed effect; failure, a failed goal with a failed result; limitation, no failed
      goal. */
  predicate Concludes(goal: GoalState, outcome: Outcome, verdict: Verdict, effect: Observation, skipped: bool, d: Disposition) {
    || (d == Succeeded && goal == Done && outcome == PassOutcome && verdict == PassVerdict && effect == Observed)
    || (d == SucceededWithLimitations && skipped && (goal == Done || goal == Skipped) && effect == Observed)
    || (d == Failure && goal == Failed && outcome == FailedOutcome)
    || (d == Limitation && (goal == Done || goal == Skipped || goal == Limited))
  }

  /** No goal is active, and the chain, reviewed, supports the disposition. */
  predicate MayPrepare(s: Snapshot, r: Request, d: Disposition, c: SubjectChain) {
    && ReviewedChain(s, c) && NewFinalization in r.allocate
    && (forall g :: g in s.goals ==> s.goals[g].state != Active)
    && c.goal.ref in s.goals && c.result.ref in s.results && c.effect.ref in s.effects && c.review.Some?
    && c.review.value.ref in s.reviews
    && Concludes(s.goals[c.goal.ref].state, s.results[c.result.ref].outcome, s.reviews[c.review.value.ref].verdict,
                 s.effects[c.effect.ref].state, exists g :: g in s.goals && s.goals[g].state == Skipped, d)
  }

  /** The finalization names the chain and its digest, and is not closed; the loop is finalising. */
  predicate PreparedAfter(s: Snapshot, r: Request, d: Disposition, c: SubjectChain, t: Reduced)
    requires NewFinalization in r.allocate && c.review.Some?
  {
    var ref := r.allocate[NewFinalization];
    && t.snapshot == s.(
         finalizations := s.finalizations[ref := Finalization(
           c.artifact.ref, c.attempt.ref, c.effect.ref, c.goal.ref, c.report.ref, c.result.ref, c.review.value.ref,
           Digest(SubjectChainOf(c)), d, NoStrength, false, 1)],
         execution := s.execution.(revision := s.execution.revision + 1, state := Finalizing))
    && t.events == [FinalizationPrepared(ref)]
  }

  lemma DispositionExactly(s: Snapshot, goal: Goal, result: ResultRec, review: Review, effect: Effect, d: Disposition)
    ensures goal.state in {Done, Skipped, Failed, Limited} && CheckDisposition(s, goal, result, review, effect, d) == Pass
            <==> Concludes(goal.state, result.outcome, review.verdict, effect.state,
                           exists g :: g in s.goals && s.goals[g].state == Skipped, d)
  {
  }

  /** A finalization is prepared exactly once no goal is active and the reviewed chain supports its disposition. */
  lemma PrepareExactly(s: Snapshot, r: Request, d: Disposition)
    ensures AfterPrepare(s, r, d).Ok? <==> exists c :: MayPrepare(s, r, d, c)
    ensures forall c :: MayPrepare(s, r, d, c) ==> PreparedAfter(s, r, d, c, AfterPrepare(s, r, d).value)
  {
    hide FinalChain, CheckDisposition, Concludes, ReviewedChain, PreparedAfter;
    if FinalChain(s).Ok? {
      var c := FinalChain(s).value;
      FinalChainExactly(s, c);
      PrepareOnChain(s, r, d, c);
      assert AfterPrepare(s, r, d).Ok? <==> MayPrepare(s, r, d, c);
    }
    forall c | MayPrepare(s, r, d, c) ensures FinalChain(s) == Ok(c) { FinalChainExactly(s, c); }
  }

  lemma PrepareOnChain(s: Snapshot, r: Request, d: Disposition, c: SubjectChain)
    requires FinalChain(s) == Ok(c)
    ensures AfterPrepare(s, r, d).Ok? <==> MayPrepare(s, r, d, c)
    ensures MayPrepare(s, r, d, c) ==> PreparedAfter(s, r, d, c, AfterPrepare(s, r, d).value)
  {
    hide FinalChain, CheckDisposition, Concludes, ReviewedChain;
    FinalChainExactly(s, c);
    ReviewedChainRecords(s, c);
    ArtifactOfChain(s, c);
    DispositionExactly(s, s.goals[c.goal.ref], s.results[c.result.ref], s.reviews[c.review.value.ref],
                       s.effects[c.effect.ref], d);
  }

  lemma ArtifactOfChain(s: Snapshot, c: SubjectChain)
    requires ReviewedChain(s, c)
    ensures c.result.ref in s.results && s.results[c.result.ref].artifactRef == Some(c.artifact.ref)
  {
  }

  // CloseExecution, StrengthenClosureAssurance -----------------------------------------------------------------

  /** The command's receipt reads the lifecycle of this finalization back, for its chain. */
  predicate ReadsBack(r: Request, ctx: Context, chainDigest: Str) {
    && ReceiptStands(r, ctx)
    && Attests(ctx.receipts[r.receipt.value], r.loop, Text("lifecycle-readback"), r.subject)
    && ctx.receipts[r.receipt.value].request == Some(chainDigest)
  }

  predicate StrictlyAcknowledged(receipt: Receipt) { receipt.trust == StrictTrust && receipt.outcome == SeenAcknowledged }

  /** An open finalization whose chain is still the current one, read back; success only strictly acknowledged. */
  predicate MayClose(s: Snapshot, r: Request, ctx: Context, c: SubjectChain) {
    && r.subject in s.finalizations && !s.finalizations[r.subject].closed
    && var f := s.finalizations[r.subject];
       && ReadsBack(r, ctx, f.chainDigest) && ReviewedChain(s, c) && f.chainDigest == Digest(SubjectChainOf(c))
       && (f.disposition == Succeeded || f.disposition == SucceededWithLimitations ==>
             StrictlyAcknowledged(ctx.receipts[r.receipt.value]))
  }

  predicate ClosedAfter(s: Snapshot, r: Request, receipt: Receipt, t: Reduced)
    requires r.subject in s.finalizations
  {
    var f := s.finalizations[r.subject];
    var strength := if StrictlyAcknowledged(receipt) then Strict else Cooperative;
    && t.snapshot == s.(
         finalizations := s.finalizations[r.subject := f.(strength := strength, closed := true, revision := f.revision + 1)],
         execution := s.execution.(disposition := Some(f.disposition), revision := s.execution.revision + 1, state := Terminal),
         closure := Closure(strength, Some(r.subject), Some(receipt.ref), 1))
    && t.events == [ExecutionFinalized(r.subject)]
                   + if strength == Strict then [StrictFinalizationAcknowledged(r.subject)] else []
  }

  lemma ReadbackExactly(r: Request, ctx: Context, chainDigest: Str)
    ensures ReceiptFor(r, ctx, About(LIFECYCLE_READBACK, r.subject, None, None, Some(chainDigest))).Ok?
            <==> ReadsBack(r, ctx, chainDigest)
    ensures ReadsBack(r, ctx, chainDigest) ==>
              ReceiptFor(r, ctx, About(LIFECYCLE_READBACK, r.subject, None, None, Some(chainDigest))).value
              == ctx.receipts[r.receipt.value]
  {
    ReceiptExactly(r, ctx, About(LIFECYCLE_READBACK, r.subject, None, None, Some(chainDigest)));
    hide ReceiptFor;
  }

  /** A loop closes exactly on a readback of its prepared finalization while the chain has not changed, and successfully
      only on a strict one; closure is strict exactly if the readback is. */
  lemma CloseExactly(s: Snapshot, r: Request, ctx: Context)
    ensures AfterClose(s, r, ctx).Ok? <==> exists c :: MayClose(s, r, ctx, c)
    ensures AfterClose(s, r, ctx).Ok? ==>
              && r.subject in s.finalizations && ReceiptStands(r, ctx)
              && ClosedAfter(s, r, ctx.receipts[r.receipt.value], AfterClose(s, r, ctx).value)
  {
    hide FinalChain, ReviewedChain, ReceiptFor, Attests;
    if r.subject in s.finalizations { ReadbackExactly(r, ctx, s.finalizations[r.subject].chainDigest); }
    if FinalChain(s).Ok? { FinalChainExactly(s, FinalChain(s).value); }
    forall c | MayClose(s, r, ctx, c) ensures FinalChain(s) == Ok(c) { FinalChainExactly(s, c); }
    if AfterClose(s, r, ctx).Ok? { assert MayClose(s, r, ctx, FinalChain(s).value); }
  }

  /** A terminal loop, closed cooperatively by this finalization, and a strict readback of it. */
  predicate MayStrengthen(s: Snapshot, r: Request, ctx: Context) {
    && r.subject in s.finalizations && s.execution.state == Terminal
    && s.finalizations[r.subject].closed && s.finalizations[r.subject].strength == Cooperative
    && s.closure.strength == Cooperative && s.closure.finalizationRef == Some(r.subject)
    && ReadsBack(r, ctx, s.finalizations[r.subject].chainDigest) && StrictlyAcknowledged(ctx.receipts[r.receipt.value])
  }

  /** A cooperative closure is made strict exactly by a strict readback of its finalization. */
  lemma StrengthenExactly(s: Snapshot, r: Request, ctx: Context)
    ensures AfterStrengthen(s, r, ctx).Ok? <==> MayStrengthen(s, r, ctx)
    ensures MayStrengthen(s, r, ctx) ==>
              var f := s.finalizations[r.subject];
              && AfterStrengthen(s, r, ctx).value.snapshot == s.(
                   finalizations := s.finalizations[r.subject := f.(strength := Strict, revision := f.revision + 1)],
                   closure := Closure(Strict, Some(r.subject), Some(ctx.receipts[r.receipt.value].ref), s.closure.revision + 1))
              && AfterStrengthen(s, r, ctx).value.events
                 == [ClosureAssuranceStrengthened(r.subject), StrictFinalizationAcknowledged(r.subject)]
  {
    hide ReceiptFor, Attests;
    if r.subject in s.finalizations { ReadbackExactly(r, ctx, s.finalizations[r.subject].chainDigest); }
  }
}
