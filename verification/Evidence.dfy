/** What it takes to observe an effect, stage, acknowledge and review a result, and advance a goal, and what these
    commands put on record. */
module Evidence {
  import opened Base
  import opened Records
  import opened Commands
  import opened Authority
  import opened Kernel
  import opened Permissions
  import opened PlanProgress

  // The active goal --------------------------------------------------------------------------------------------

  predicate OneActive(goals: map<Str, Goal>, g: Str) {
    && g in goals && goals[g].state == Active && forall h :: h in goals && goals[h].state == Active ==> h == g
  }

  lemma OnlyActive(goals: map<Str, Goal>)
    ensures Only(ActiveGoals(goals)).Some? ==> OneActive(goals, Only(ActiveGoals(goals)).value)
    ensures forall g :: OneActive(goals, g) ==> Only(ActiveGoals(goals)) == Some(g)
  {
    if Only(ActiveGoals(goals)).Some? {
      var g := Only(ActiveGoals(goals)).value;
      assert g in ActiveGoals(goals);
      forall h | h in goals && goals[h].state == Active ensures h == g { assert h in ActiveGoals(goals); }
    }
    forall g | OneActive(goals, g) ensures Only(ActiveGoals(goals)) == Some(g) {
      assert ActiveGoals(goals) == {g};
    }
  }

  // RecordExternalEffectObservation ----------------------------------------------------------------------------

  /** What a receipt shows of an attempt: OBSERVED takes a strict receipt of an observation, in any state; UNKNOWN a
      receipt saying so and UNVERIFIABLE any other cooperative one, both only while the attempt is COMMITTED. */
  predicate Shows(receipt: Receipt, prior: Observation, next: Observation) {
    var seen := receipt.outcome == SeenObserved && receipt.trust == StrictTrust;
    match next
    case Committed => false
    case Observed => seen
    case Unknown => receipt.outcome == SeenUnknown && prior == Committed
    case Unverifiable => !seen && receipt.outcome != SeenUnknown && receipt.trust == CooperativeTrust && prior == Committed
  }

  /** The command's receipt is about exactly this attempt: its action, effect, target, request and idempotency key. */
  predicate AboutAttempt(r: Request, ctx: Context, effect: Effect, attempt: Attempt) {
    && ReceiptStands(r, ctx)
    && var receipt := ctx.receipts[r.receipt.value];
       && Attests(receipt, r.loop, attempt.action, r.subject)
       && receipt.attempt == Some(effect.attemptRef) && receipt.target == Some(attempt.target)
       && receipt.request == Some(attempt.requestDigest) && receipt.key == Some(attempt.key)
       && (receipt.outcome == SeenObserved ==> receipt.resource.Some? && receipt.resource.value != Text(""))
  }

  /** An observation of the subject effect as `next`; a host that is bound already must be bound by this receipt. */
  predicate MayObserveAs(s: Snapshot, r: Request, ctx: Context, next: Observation) {
    && r.subject in s.effects && s.effects[r.subject].attemptRef in s.attempts
    && var effect := s.effects[r.subject];
       && AboutAttempt(r, ctx, effect, s.attempts[effect.attemptRef])
       && Shows(ctx.receipts[r.receipt.value], s.attempts[effect.attemptRef].state, next)
       && (next == Observed && effect.hostRef in s.hosts ==>
             s.hosts[effect.hostRef].receipt == ctx.receipts[r.receipt.value].ref)
  }

  /** Effect and attempt carry the receipt and the state it shows; an observed effect has its host bound. */
  predicate ObservedAfter(s: Snapshot, t: Snapshot, ref: Str, receipt: Receipt, next: Observation) {
    && ref in s.effects && ref in t.effects && s.effects[ref].attemptRef in t.attempts
    && t.effects[ref].state == next && t.effects[ref].receipt == Some(receipt.ref)
    && t.attempts[s.effects[ref].attemptRef].state == next && t.attempts[s.effects[ref].attemptRef].receipt == Some(receipt.ref)
    && var host := s.effects[ref].hostRef;
       && (next == Observed ==> host in t.hosts && t.hosts[host].receipt == receipt.ref)
       && (next == Observed && host !in s.hosts ==> Some(t.hosts[host].resource) == receipt.resource)
       && (next != Observed ==> t.hosts == s.hosts)
  }

  predicate SightingEvents(events: seq<Event>, ref: Str, prior: Observation, next: Observation, host: Option<Str>) {
    events == [match next
               case Observed => if prior in {Unknown, Unverifiable} then LateExternalEffectObserved(ref)
                                else ExternalEffectObserved(ref)
               case Unknown => ExternalEffectUnknown(ref)
               case _ => ExternalEffectUnverifiable(ref)]
              + if host.Some? then [HostResourceBound(host.value)] else []
  }

  lemma EffectReceiptExactly(r: Request, ctx: Context, effect: Effect, attempt: Attempt)
    ensures ReceiptOfEffect(r, ctx, effect, attempt).Ok? <==> AboutAttempt(r, ctx, effect, attempt)
    ensures AboutAttempt(r, ctx, effect, attempt) ==>
              ReceiptOfEffect(r, ctx, effect, attempt).value == ctx.receipts[r.receipt.value]
  {
    hide ReceiptStands, Attests, ReceiptFor;
    ReceiptExactly(r, ctx, About(attempt.action, r.subject, Some(effect.attemptRef), Some(attempt.target),
                                 Some(attempt.requestDigest)));
  }

  lemma SightedExactly(receipt: Receipt, prior: Observation, ref: Str)
    ensures Sighted(receipt, prior, ref).Ok? ==> Shows(receipt, prior, Sighted(receipt, prior, ref).value.0)
    ensures forall next :: Shows(receipt, prior, next) ==>
              Sighted(receipt, prior, ref).Ok? && Sighted(receipt, prior, ref).value.0 == next
    ensures Sighted(receipt, prior, ref).Ok? ==>
              SightingEvents([Sighted(receipt, prior, ref).value.1], ref, prior, Sighted(receipt, prior, ref).value.0, None)
  {
  }

  /** An observation is accepted exactly when its receipt is about the attempt and shows some state; it then records
      that state. */
  lemma ObserveExactly(s: Snapshot, r: Request, ctx: Context)
    ensures AfterObserve(s, r, ctx).Ok? <==> exists next :: MayObserveAs(s, r, ctx, next)
    ensures AfterObserve(s, r, ctx).Ok? ==>
              && r.subject in AfterObserve(s, r, ctx).value.snapshot.effects
              && var t := AfterObserve(s, r, ctx).value; ObservesAs(s, r, ctx, t, t.snapshot.effects[r.subject].state)
  {
    hide Attests, ReceiptOfEffect, Sighted, Shows, SightingEvents;
    if r.subject in s.effects && s.effects[r.subject].attemptRef in s.attempts {
      var effect := s.effects[r.subject];
      var attempt := s.attempts[effect.attemptRef];
      EffectReceiptExactly(r, ctx, effect, attempt);
      if AboutAttempt(r, ctx, effect, attempt) {
        SightedExactly(ctx.receipts[r.receipt.value], attempt.state, r.subject);
        if AfterObserve(s, r, ctx).Ok? {
          ObservesSighted(s, r, ctx, Sighted(ctx.receipts[r.receipt.value], attempt.state, r.subject).value);
        }
      }
    }
  }

  /** The observation is allowed, recorded and announced. */
  predicate ObservesAs(s: Snapshot, r: Request, ctx: Context, t: Reduced, next: Observation) {
    && MayObserveAs(s, r, ctx, next)
    && ObservedAfter(s, t.snapshot, r.subject, ctx.receipts[r.receipt.value], next)
    && var effect := s.effects[r.subject];
       SightingEvents(t.events, r.subject, s.attempts[effect.attemptRef].state, next,
                      if next == Observed && effect.hostRef !in s.hosts then Some(effect.hostRef) else None)
  }

  lemma ObservesSighted(s: Snapshot, r: Request, ctx: Context, sighted: (Observation, Event))
    requires r.subject in s.effects && s.effects[r.subject].attemptRef in s.attempts && AfterObserve(s, r, ctx).Ok?
    requires var effect := s.effects[r.subject]; var attempt := s.attempts[effect.attemptRef];
             && AboutAttempt(r, ctx, effect, attempt)
             && ReceiptOfEffect(r, ctx, effect, attempt) == Ok(ctx.receipts[r.receipt.value])
             && Sighted(ctx.receipts[r.receipt.value], attempt.state, r.subject) == Ok(sighted)
             && Shows(ctx.receipts[r.receipt.value], attempt.state, sighted.0)
             && SightingEvents([sighted.1], r.subject, attempt.state, sighted.0, None)
    ensures r.subject in AfterObserve(s, r, ctx).value.snapshot.effects
    ensures AfterObserve(s, r, ctx).value.snapshot.effects[r.subject].state == sighted.0
    ensures ObservesAs(s, r, ctx, AfterObserve(s, r, ctx).value, sighted.0)
  {
    hide ReceiptOfEffect, Sighted, Attests;
  }

  // StageExternalResult ----------------------------------------------------------------------------------------

  /** A result of an effect that has been sighted, for the one active goal. */
  predicate MayStage(s: Snapshot, r: Request, summary: string) {
    && r.subject in s.effects && s.effects[r.subject].state in {Observed, Unknown, Unverifiable}
    && NewResult in r.allocate && NewReport in r.allocate
    && SourceObservation in r.resolved && IsHex64(r.resolved[SourceObservation])
    && (exists i :: 0 <= i < |summary| && !IsSpace(summary[i]))
    && exists g :: g in s.goals && OneActive(s.goals, g)
  }

  /** The result as reported, bound to the effect, its attempt and the active goal; the report, by its author. */
  predicate StagedAfter(s: Snapshot, r: Request, outcome: Outcome, summary: string, t: Snapshot) {
    && NewResult in r.allocate && NewReport in r.allocate && r.subject in s.effects && SourceObservation in r.resolved
    && t.currentResult == Some(r.allocate[NewResult])
    && r.allocate[NewResult] in t.results && r.allocate[NewReport] in t.reports
    && var result := t.results[r.allocate[NewResult]];
       && OneActive(s.goals, result.goalRef)
       && result == ResultRec(s.effects[r.subject].attemptRef, r.subject, result.goalRef, outcome, r.allocate[NewReport],
                              r.resolved[SourceObservation], None, 1, Staged)
       && t.reports[r.allocate[NewReport]]
          == Report(r.actor, Digest(ReportContent(outcome, summary)), r.allocate[NewResult], 1, false)
       && t == s.(results := s.results[r.allocate[NewResult] := result],
                  reports := s.reports[r.allocate[NewReport] := t.reports[r.allocate[NewReport]]],
                  currentResult := Some(r.allocate[NewResult]))
  }

  /** A result is staged exactly under these conditions, and exactly as reported. */
  lemma StageExactly(s: Snapshot, r: Request, outcome: Outcome, summary: string)
    ensures AfterStage(s, r, outcome, summary).Ok? <==> MayStage(s, r, summary)
    ensures AfterStage(s, r, outcome, summary).Ok? ==>
              && StagedAfter(s, r, outcome, summary, AfterStage(s, r, outcome, summary).value.snapshot)
              && AfterStage(s, r, outcome, summary).value.events
                 == [ResultStaged(r.allocate[NewResult]), ReportStaged(r.allocate[NewReport])]
  {
    OnlyActive(s.goals);
    hide OneActive, ActiveGoals, Only, IsHex64, IsSpace;
  }

  // AcknowledgeResult ------------------------------------------------------------------------------------------

  const ACKNOWLEDGEMENT := {ArtifactDigest, CaptureState, ArtifactProfile, ManifestDigest, VerificationDigest, VerificationState}

  /** The receipt verifies the artifact: strictly for one that was captured, cooperatively otherwise. */
  predicate AttestsArtifact(r: Request, ctx: Context) {
    && NewArtifact in r.allocate && ACKNOWLEDGEMENT <= r.resolved.Keys && ReceiptStands(r, ctx)
    && var receipt := ctx.receipts[r.receipt.value];
       && Attests(receipt, r.loop, Text("verify-artifact"), r.allocate[NewArtifact])
       && receipt.request == Some(r.resolved[VerificationDigest]) && receipt.evidence == r.resolved[ArtifactDigest]
       && r.resolved[CaptureState] in {Text("CAPTURED"), Text("UNAVAILABLE")}
       && r.resolved[VerificationState] in {Text("VERIFIED"), Text("FAILED"), Text("UNVERIFIABLE")}
       && if receipt.trust == StrictTrust then
            receipt.outcome == SeenObserved && r.resolved[CaptureState] == Text("CAPTURED")
          else receipt.trust == CooperativeTrust && receipt.outcome == SeenUnverifiable
  }

  predicate MayAcknowledge(s: Snapshot, r: Request, ctx: Context) {
    && r.subject in s.results && s.results[r.subject].state == Staged
    && s.results[r.subject].reportRef in s.reports && !s.reports[s.results[r.subject].reportRef].accepted
    && AttestsArtifact(r, ctx)
  }

  /** The artifact as the command describes it, verified exactly by a strict receipt; result and report move on. */
  predicate AcknowledgedAfter(s: Snapshot, r: Request, ctx: Context, t: Snapshot)
    requires MayAcknowledge(s, r, ctx)
  {
    var ref, f, receipt := r.allocate[NewArtifact], r.resolved, ctx.receipts[r.receipt.value];
    var result := s.results[r.subject];
    var report := s.reports[result.reportRef];
    t == s.(artifacts := s.artifacts[ref := Artifact(
              f[ArtifactDigest], f[CaptureState], f[ManifestDigest], f[ArtifactProfile], receipt.ref, r.subject,
              f[VerificationDigest], f[VerificationState], receipt.trust == StrictTrust, 1)],
            reports := s.reports[result.reportRef := report.(accepted := true, revision := report.revision + 1)],
            results := s.results[r.subject := result.(state := Acknowledged, artifactRef := Some(ref),
                                                      revision := result.revision + 1)])
  }

  lemma ArtifactExactly(r: Request, ctx: Context)
    ensures Acknowledgement(r, ctx).Ok? <==> AttestsArtifact(r, ctx)
    ensures AttestsArtifact(r, ctx) ==>
              var receipt := ctx.receipts[r.receipt.value];
              Acknowledgement(r, ctx).value == (r.allocate[NewArtifact], Artifact(
                r.resolved[ArtifactDigest], r.resolved[CaptureState], r.resolved[ManifestDigest], r.resolved[ArtifactProfile],
                receipt.ref, r.subject, r.resolved[VerificationDigest], r.resolved[VerificationState],
                receipt.trust == StrictTrust, 1))
  {
    hide ReceiptFor, ReceiptStands;
    if NewArtifact in r.allocate && VerificationDigest in r.resolved {
      ReceiptExactly(r, ctx, About(VERIFY_ARTIFACT, r.allocate[NewArtifact], None, None, Some(r.resolved[VerificationDigest])));
    }
    assert ACKNOWLEDGEMENT <= r.resolved.Keys <==>
           && ArtifactDigest in r.resolved && CaptureState in r.resolved && ArtifactProfile in r.resolved
           && ManifestDigest in r.resolved && VerificationDigest in r.resolved && VerificationState in r.resolved;
  }

  /** A result is acknowledged exactly on a receipt for its artifact, and verified exactly if the receipt is strict. */
  lemma AcknowledgeExactly(s: Snapshot, r: Request, ctx: Context)
    ensures AfterAcknowledge(s, r, ctx).Ok? <==> MayAcknowledge(s, r, ctx)
    ensures MayAcknowledge(s, r, ctx) ==>
              && AcknowledgedAfter(s, r, ctx, AfterAcknowledge(s, r, ctx).value.snapshot)
              && AfterAcknowledge(s, r, ctx).value.events
                 == (if r.resolved[CaptureState] == Text("CAPTURED") then [ArtifactCaptured(r.allocate[NewArtifact])] else [])
                    + [if ctx.receipts[r.receipt.value].trust == StrictTrust then ArtifactVerified(r.allocate[NewArtifact])
                       else ArtifactUnverifiable(r.allocate[NewArtifact]),
                       ReportAccepted(s.results[r.subject].reportRef), ResultAcknowledged(r.subject)]
  {
    ArtifactExactly(r, ctx);
    hide Acknowledgement, Attests;
  }

  // RecordReview -----------------------------------------------------------------------------------------------

  predicate Sole<V>(m: map<Str, V>, k: Str) { k in m && forall h :: h in m ==> h == k }

  lemma SoleIsOnly<V>(m: map<Str, V>)
    ensures Only(m.Keys).Some? ==> Sole(m, Only(m.Keys).value)
    ensures forall k :: Sole(m, k) ==> Only(m.Keys) == Some(k)
  {
    if Only(m.Keys).Some? {
      var k := Only(m.Keys).value;
      assert k in m.Keys;
      forall h | h in m ensures h == k { assert h in m.Keys; }
    }
    forall k | Sole(m, k) ensures Only(m.Keys) == Some(k) { assert m.Keys == {k}; }
  }

  /** The chain of the current result (the only one, when none is marked): the records the result names, its effect's
      host, and its goal (the only one, when the result's is unknown), each at its revision. */
  predicate CurrentChain(s: Snapshot, c: SubjectChain) {
    && (if s.currentResult.Some? then c.result.ref == s.currentResult.value else Sole(s.results, c.result.ref))
    && c.result.ref in s.results && NamesChain(s, s.results[c.result.ref], c)
    && c.artifact.ref in s.artifacts && s.artifacts[c.artifact.ref].revision == c.artifact.revision
    && c.attempt.ref in s.attempts && s.attempts[c.attempt.ref].revision == c.attempt.revision
    && c.report.ref in s.reports && s.reports[c.report.ref].revision == c.report.revision
    && c.effect.ref in s.effects && s.effects[c.effect.ref].revision == c.effect.revision
    && c.host.ref == s.effects[c.effect.ref].hostRef
    && c.host.ref in s.hosts && s.hosts[c.host.ref].revision == c.host.revision
    && c.goal.ref in s.goals && s.goals[c.goal.ref].revision == c.goal.revision
    && c.review == None
  }

  predicate NamesChain(s: Snapshot, result: ResultRec, c: SubjectChain) {
    && c.attempt.ref == result.attemptRef && c.report.ref == result.reportRef && c.effect.ref == result.effectRef
    && result.artifactRef == Some(c.artifact.ref) && c.result.revision == result.revision
    && (if result.goalRef in s.goals then c.goal.ref == result.goalRef else Sole(s.goals, c.goal.ref))
  }

  lemma ChainExactly(s: Snapshot, c: SubjectChain)
    ensures ResultChain(s) == Ok(c) <==> CurrentChain(s, c)
  {
    SoleIsOnly(s.results);
    SoleIsOnly(s.goals);
    hide Sole, Only;
  }

  predicate MayReview(s: Snapshot, r: Request, c: SubjectChain) {
    && r.subject in s.results && s.results[r.subject].state == Acknowledged && NewReview in r.allocate
    && CurrentChain(s, c) && s.results[r.subject].artifactRef.Some?
  }

  /** A review is accepted exactly of an acknowledged result while the current chain is complete; it records its verdict,
      its author and the current chain. */
  lemma ReviewExactly(s: Snapshot, r: Request, verdict: Verdict)
    ensures AfterReview(s, r, verdict).Ok? <==> exists c :: MayReview(s, r, c)
    ensures forall c :: MayReview(s, r, c) ==>
              var result := s.results[r.subject];
              && AfterReview(s, r, verdict).value.snapshot
                 == s.(reviews := s.reviews[r.allocate[NewReview] := Review(
                         result.artifactRef.value, result.reportRef, r.subject, r.actor, Digest(SubjectChainOf(c)), 1, verdict)])
              && AfterReview(s, r, verdict).value.events == [ReviewRecorded(r.allocate[NewReview])]
  {
    hide CurrentChain, ResultChain;
    if ResultChain(s).Ok? { ChainExactly(s, ResultChain(s).value); }
    forall c | MayReview(s, r, c) ensures ResultChain(s) == Ok(c) { ChainExactly(s, c); }
    if AfterReview(s, r, verdict).Ok? { assert MayReview(s, r, ResultChain(s).value); }
  }

  // AdvanceGoal ------------------------------------------------------------------------------------------------

  /** What each disposition takes: DONE a passed result and a passing review; FAILED a failed result and a review that
      does not ask for repair; LIMITATION a review saying so; SKIPPED an optional goal, such a review, and a result that
      admits a limitation. */
  predicate Warrants(requirement: Requirement, outcome: Outcome, verdict: Verdict, to: GoalState) {
    || (to == Done && outcome == PassOutcome && verdict == PassVerdict)
    || (to == Failed && outcome == FailedOutcome && verdict != RepairVerdict)
    || (to == Limited && verdict == LimitationVerdict)
    || (to == Skipped && requirement == Optional && verdict == LimitationVerdict
        && (outcome == LimitationOutcome || outcome == UnverifiableOutcome))
  }

  /** The review judges an acknowledged result, with its report and artifact, that is bound to the goal by itself and by
      its effect. */
  predicate Judges(s: Snapshot, reviewRef: Str, goalRef: Str) {
    && reviewRef in s.reviews && s.reviews[reviewRef].resultRef in s.results
    && var review := s.reviews[reviewRef];
       var result := s.results[review.resultRef];
       && result.state == Acknowledged && result.reportRef == review.reportRef && result.artifactRef == Some(review.artifactRef)
       && result.goalRef == goalRef && result.effectRef in s.effects && s.effects[result.effectRef].goalRef == goalRef
  }

  /** An active goal, and a review of one of its results that warrants the disposition. */
  predicate Evident(s: Snapshot, goalRef: Str, reviewRef: Str, to: GoalState) {
    && goalRef in s.goals && s.goals[goalRef].state == Active && Judges(s, reviewRef, goalRef)
    && Warrants(s.goals[goalRef].requirement, s.results[s.reviews[reviewRef].resultRef].outcome,
                s.reviews[reviewRef].verdict, to)
  }

  /** An advance is a settlement on evident grounds. */
  lemma AdvanceIsEvident(s: Snapshot, r: Request, to: GoalState)
    ensures AfterAdvance(s, r, to).Ok?
            <==> && ReviewBinding in r.resolved && Evident(s, r.subject, r.resolved[ReviewBinding], to)
                 && Settle(s, r, to).Ok?
    ensures AfterAdvance(s, r, to).Ok? ==> AfterAdvance(s, r, to) == Settle(s, r, to)
  {
    hide Settle;
  }

  /** The command allocates the chain of the next goal and describes it, its target, plan, index and workspace as the
      plan has them. */
  predicate AnnouncesNext(s: Snapshot, r: Request, chain: Chain, i: int)
    requires 0 <= i < |s.plan.ids| == |s.plan.slices|
  {
    var a, f, p := r.allocate, r.resolved, s.plan;
    && {NewAttempt, NewEffect, NewGoal, NewHost, ProviderIdempotencyKey} <= a.Keys
    && a[NewAttempt] == chain.attemptRef && a[NewEffect] == chain.effectRef && a[NewGoal] == chain.goalRef
    && a[NewHost] == chain.hostRef && a[ProviderIdempotencyKey] == chain.providerKey
    && {NextGoalId, NextSlice, ProviderTarget, PlanDigest, IndexDigest, WorkspaceIdentity} <= f.Keys
    && f[NextGoalId] == p.ids[i] && f[NextSlice] == p.slices[i] && f[ProviderTarget] == chain.providerTarget
    && f[PlanDigest] == p.planDigest && f[IndexDigest] == p.indexDigest && f[WorkspaceIdentity] == p.workspace
  }

  /** It says how often the next goal may be tried (once to three times) and whether it is required, or leaves it out. */
  predicate LimitsNext(f: map<Field, Str>) {
    && (NextRequirement in f ==> f[NextRequirement] in {Text("required"), Text("optional")})
    && (NextMaxAttempts in f ==> f[NextMaxAttempts].Num? && 1 <= f[NextMaxAttempts].number <= 3)
  }

  /** It carries 64-character digests of the objective and the request and an artifact baseline of a known profile. */
  predicate EquipsNext(f: map<Field, Str>) {
    && {NextObjective, RequestDigest, BaselineBlob, ArtifactProfile, WorkspaceIdentity} <= f.Keys
    && Is64(f[NextObjective]) && Is64(f[RequestDigest])
    && f[ArtifactProfile] in {Text("existing_git"), Text("non_git"), Text("new_git")}
  }

  /** Nothing exists yet under the references of the chain. */
  predicate ChainIsNew(s: Snapshot, chain: Chain) {
    chain.goalRef !in s.goals && chain.attemptRef !in s.attempts && chain.effectRef !in s.effects
  }

  /** What an advance needs besides evidence: the goal is the plan's, and if one follows, the command materialises it. */
  predicate MayMoveOn(s: Snapshot, r: Request, to: GoalState) {
    var p := s.plan;
    to in {Done, Skipped} ==>
      && 0 <= p.activeIndex < |p.ids| == p.goalCount && |p.slices| == |p.ids| && p.activeGoalRef == r.subject
      && (p.activeIndex + 1 < |p.ids| ==>
            var chain := GoalChain(s.loopRef, p.planDigest, p.ids[p.activeIndex + 1], p.slices[p.activeIndex + 1]);
            && AnnouncesNext(s, r, chain, p.activeIndex + 1) && LimitsNext(r.resolved) && EquipsNext(r.resolved)
            && ChainIsNew(s, chain))
  }

  /** The effect and the attempt of a chain, just launched: nothing sighted, no receipt, the issuer's request on record. */
  predicate Launched(
    u: Snapshot, r: Request, chain: Chain, action: Str, baseline: Option<Baseline>, ordinal: int, request: ProviderRequest)
  {
    && chain.effectRef in u.effects && chain.attemptRef in u.attempts && RequestDigest in r.resolved
    && u.effects[chain.effectRef] == Effect(action, baseline, chain.attemptRef, chain.goalRef, chain.hostRef,
                                            chain.providerTarget, 1, Committed, None)
    && u.attempts[chain.attemptRef] == Attempt(action, r.actor, r.grant, chain.effectRef, ordinal, chain.providerKey, request,
                                               r.resolved[RequestDigest], chain.providerTarget, 1, Committed, None)
  }

  /** The next goal as the plan and the command describe it, active, and the plan resting on it. */
  predicate NextAfter(s: Snapshot, r: Request, u: Snapshot)
    requires 0 <= s.plan.activeIndex && s.plan.activeIndex + 1 < |s.plan.ids| == |s.plan.slices|
    requires EquipsNext(r.resolved) && LimitsNext(r.resolved)
  {
    var p, f, i := s.plan, r.resolved, s.plan.activeIndex + 1;
    var chain := GoalChain(s.loopRef, p.planDigest, p.ids[i], p.slices[i]);
    && chain.goalRef in u.goals
    && u.goals[chain.goalRef] == Goal(
         chain, Some(r.subject), p.ids[i], p.slices[i],
         if NextMaxAttempts in f then f[NextMaxAttempts].number else 1, f[NextObjective], i,
         if NextRequirement in f && f[NextRequirement] == Text("optional") then Optional else Required, 1, Active)
    && u.plan == p.(activeGoalRef := chain.goalRef, activeIndex := i)
  }

  /** Its chain is launched, with the baseline of the command and a request that names what came before. */
  predicate NextLaunched(s: Snapshot, r: Request, to: GoalState, u: Snapshot)
    requires 0 <= s.plan.activeIndex && s.plan.activeIndex + 1 < |s.plan.ids| == |s.plan.slices| && EquipsNext(r.resolved)
  {
    var p, f, i := s.plan, r.resolved, s.plan.activeIndex + 1;
    var chain := GoalChain(s.loopRef, p.planDigest, p.ids[i], p.slices[i]);
    Launched(u, r, chain, Text("create_task"),
             Some(Baseline(f[BaselineBlob], f[ArtifactProfile], f[WorkspaceIdentity])), i + 1,
             ProviderRequest(i, f[BaselineBlob], p.ids[i], p.slices[i], p.planDigest, p.indexDigest, Following(to),
                             chain.providerTarget, p.workspace))
  }

  lemma DescriptionExactly(s: Snapshot, r: Request, chain: Chain, i: int)
    requires 0 <= i < |s.plan.ids| == |s.plan.slices|
    ensures DescribesNext(r, s.plan, chain, s.plan.ids[i], s.plan.slices[i])
            <==> AnnouncesNext(s, r, chain, i) && LimitsNext(r.resolved)
    ensures LimitsNext(r.resolved) ==>
              && NextRequirementOf(r.resolved)
                 == Some(if NextRequirement in r.resolved && r.resolved[NextRequirement] == Text("optional")
                         then Optional else Required)
              && NextMaxAttemptsOf(r.resolved)
                 == Some(if NextMaxAttempts in r.resolved then r.resolved[NextMaxAttempts].number else 1)
  {
  }

  lemma EquipmentExactly(s: Snapshot, r: Request, chain: Chain, advanced: Snapshot)
    requires advanced.goals.Keys == s.goals.Keys && advanced == s.(goals := advanced.goals)
    ensures MaterializesNext(r, advanced, chain) <==> EquipsNext(r.resolved) && ChainIsNew(s, chain)
  {
    hide Is64;
    assert chain.goalRef in advanced.goals <==> chain.goalRef in s.goals by {
      assert chain.goalRef in advanced.goals.Keys <==> chain.goalRef in s.goals.Keys;
    }
  }

  lemma NextExactly(s: Snapshot, r: Request, to: GoalState, advanced: Snapshot)
    requires 0 <= s.plan.activeIndex && s.plan.activeIndex + 1 < |s.plan.ids| == |s.plan.slices|
    requires advanced.goals.Keys == s.goals.Keys && advanced == s.(goals := advanced.goals)
    ensures var i := s.plan.activeIndex + 1;
            var chain := GoalChain(s.loopRef, s.plan.planDigest, s.plan.ids[i], s.plan.slices[i]);
            && (NextGoal(advanced, r, r.subject, to).Ok?
                <==> AnnouncesNext(s, r, chain, i) && LimitsNext(r.resolved) && EquipsNext(r.resolved) && ChainIsNew(s, chain))
  {
    var i := s.plan.activeIndex + 1;
    var chain := GoalChain(s.loopRef, s.plan.planDigest, s.plan.ids[i], s.plan.slices[i]);
    DescriptionExactly(s, r, chain, i);
    EquipmentExactly(s, r, chain, advanced);
    hide GoalChain, AnnouncesNext, EquipsNext, ChainIsNew, DescribesNext, MaterializesNext, NewEffectRecord, NewAttemptRecord;
  }

  lemma NextIsRecorded(s: Snapshot, r: Request, to: GoalState, advanced: Snapshot, u: Snapshot, ref: Str)
    requires 0 <= s.plan.activeIndex && s.plan.activeIndex + 1 < |s.plan.ids| == |s.plan.slices|
    requires advanced.loopRef == s.loopRef && advanced.plan == s.plan
    requires NextGoal(advanced, r, r.subject, to) == Ok((u, ref)) && LimitsNext(r.resolved) && EquipsNext(r.resolved)
    ensures NextAfter(s, r, u)
  {
    var i := s.plan.activeIndex + 1;
    var chain := GoalChain(s.loopRef, s.plan.planDigest, s.plan.ids[i], s.plan.slices[i]);
    DescriptionExactly(s, r, chain, i);
    hide GoalChain, DescribesNext, MaterializesNext, LimitsNext, EquipsNext, NextRequirementOf, NextMaxAttemptsOf,
         NewEffectRecord, NewAttemptRecord, ResolvedBaseline;
  }

  lemma NextIsLaunched(s: Snapshot, r: Request, to: GoalState, advanced: Snapshot)
    requires 0 <= s.plan.activeIndex && s.plan.activeIndex + 1 < |s.plan.ids| == |s.plan.slices|
    requires advanced.goals.Keys == s.goals.Keys && advanced == s.(goals := advanced.goals)
    requires NextGoal(advanced, r, r.subject, to).Ok? && EquipsNext(r.resolved)
    ensures NextLaunched(s, r, to, NextGoal(advanced, r, r.subject, to).value.0)
  {
    hide GoalChain, DescribesNext, MaterializesNext, NextRequirementOf, NextMaxAttemptsOf;
  }

  predicate MovesToNext(s: Snapshot, to: GoalState) { to in {Done, Skipped} && s.plan.activeIndex + 1 < |s.plan.ids| }

  /** The settled goal, and what an accepted settlement announces and answers. */
  predicate SettledAfter(s: Snapshot, r: Request, to: GoalState, t: Reduced)
    requires r.subject in s.goals && MayMoveOn(s, r, to)
  {
    var goal := s.goals[r.subject];
    && r.subject in t.snapshot.goals && t.snapshot.goals[r.subject] == goal.(state := to, revision := goal.revision + 1)
    && if MovesToNext(s, to) then
         var i := s.plan.activeIndex + 1;
         var chain := GoalChain(s.loopRef, s.plan.planDigest, s.plan.ids[i], s.plan.slices[i]);
         && NextAfter(s, r, t.snapshot) && NextLaunched(s, r, to, t.snapshot)
         && t.events == [GoalAdvanced(r.subject), GoalRegistered(chain.goalRef), GoalActivated(chain.goalRef),
                         ExternalEffectPrepared(chain.effectRef)] + (if to == Skipped then [GoalSkipped(r.subject)] else [])
         && t.response == AdvancedTo(to, Some(chain.goalRef))
       else
         && t.snapshot.plan == s.plan && t.snapshot.effects == s.effects && t.snapshot.attempts == s.attempts
         && t.events == [GoalAdvanced(r.subject)] + (if to == Skipped then [GoalSkipped(r.subject)] else [])
         && t.response == AdvancedTo(to, None)
  }

  function SettledGoal(s: Snapshot, ref: Str, to: GoalState): Snapshot
    requires ref in s.goals
  {
    s.(goals := s.goals[ref := s.goals[ref].(revision := s.goals[ref].revision + 1, state := to)])
  }

  lemma SettleNeedsNext(s: Snapshot, r: Request, to: GoalState)
    requires r.subject in s.goals
    ensures var p := s.plan;
            Settle(s, r, to).Ok?
            <==> (to in {Done, Skipped} ==>
                    && 0 <= p.activeIndex < |p.ids| == p.goalCount && |p.slices| == |p.ids| && p.activeGoalRef == r.subject
                    && (p.activeIndex + 1 < |p.ids| ==> NextGoal(SettledGoal(s, r.subject, to), r, r.subject, to).Ok?))
  {
    hide NextGoal;
  }

  lemma SettledSame(s: Snapshot, ref: Str, to: GoalState)
    requires ref in s.goals
    ensures var u := SettledGoal(s, ref, to); u.goals.Keys == s.goals.Keys && u == s.(goals := u.goals)
  {
  }

  lemma SettleExactly(s: Snapshot, r: Request, to: GoalState)
    requires r.subject in s.goals
    ensures Settle(s, r, to).Ok? <==> MayMoveOn(s, r, to)
  {
    hide Settle, NextGoal, AnnouncesNext, LimitsNext, EquipsNext, ChainIsNew, GoalChain, SettledGoal;
    SettleNeedsNext(s, r, to);
    SettledSame(s, r.subject, to);
    var p := s.plan;
    if MovesToNext(s, to) && 0 <= p.activeIndex && |p.slices| == |p.ids| {
      NextExactly(s, r, to, SettledGoal(s, r.subject, to));
    }
  }

  lemma StayingIsRecorded(s: Snapshot, r: Request, to: GoalState)
    requires r.subject in s.goals && MayMoveOn(s, r, to) && Settle(s, r, to).Ok? && !MovesToNext(s, to)
    ensures SettledAfter(s, r, to, Settle(s, r, to).value)
  {
    hide NextGoal, NextAfter, NextLaunched, GoalChain;
  }

  lemma MovingIsRecorded(s: Snapshot, r: Request, to: GoalState)
    requires r.subject in s.goals && MayMoveOn(s, r, to) && Settle(s, r, to).Ok? && MovesToNext(s, to)
    ensures SettledAfter(s, r, to, Settle(s, r, to).value)
  {
    hide NextGoal, NextAfter, NextLaunched, AnnouncesNext, LimitsNext, EquipsNext, ChainIsNew, Launched, GoalChain;
    var advanced := SettledGoal(s, r.subject, to);
    SettledSame(s, r.subject, to);
    SettleNeedsNext(s, r, to);
    var (u, ref) := NextGoal(advanced, r, r.subject, to).value;
    NextIsRecorded(s, r, to, advanced, u, ref);
    NextIsLaunched(s, r, to, advanced);
    NextKeeps(advanced, r, to, u, ref);
  }

  lemma NextKeeps(s: Snapshot, r: Request, to: GoalState, u: Snapshot, ref: Str)
    requires 0 <= s.plan.activeIndex && s.plan.activeIndex + 1 < |s.plan.ids| == |s.plan.slices|
    requires NextGoal(s, r, r.subject, to) == Ok((u, ref)) && r.subject in s.goals
    ensures var i := s.plan.activeIndex + 1;
            var chain := GoalChain(s.loopRef, s.plan.planDigest, s.plan.ids[i], s.plan.slices[i]);
            && ref == chain.goalRef && ref in u.goals && u.goals[ref].chain == chain
            && r.subject in u.goals && u.goals[r.subject] == s.goals[r.subject]
  {
    hide GoalChain, DescribesNext, NextRequirementOf, NextMaxAttemptsOf, NewEffectRecord, NewAttemptRecord, ResolvedBaseline;
  }

  /** A goal advances exactly on evident grounds, when the command also materialises the next goal of the plan, if the
      plan moves on to one; what it puts on record is as described. */
  lemma AdvanceExactly(s: Snapshot, r: Request, to: GoalState)
    ensures AfterAdvance(s, r, to).Ok?
            <==> && ReviewBinding in r.resolved && Evident(s, r.subject, r.resolved[ReviewBinding], to)
                 && MayMoveOn(s, r, to)
    ensures AfterAdvance(s, r, to).Ok? ==> SettledAfter(s, r, to, AfterAdvance(s, r, to).value)
  {
    AdvanceIsEvident(s, r, to);
    hide AfterAdvance, Settle, MayMoveOn, SettledAfter, Judges, Warrants;
    if r.subject in s.goals {
      SettleExactly(s, r, to);
      if Settle(s, r, to).Ok? {
        if MovesToNext(s, to) { MovingIsRecorded(s, r, to); } else { StayingIsRecorded(s, r, to); }
      }
    }
  }
}
