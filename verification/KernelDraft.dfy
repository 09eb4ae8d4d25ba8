/** The reducers as the program runs them: on a private copy of the snapshot, changed in place step by step, with the
    events appended on the way. Each is proved to compute its function of `Kernel`; a copy whose reducer failed is
    dropped, so nothing is said about it. `_create_loop` has no snapshot to change and stays a function. */
module KernelDraft {
  import opened Base
  import opened Records
  import opened Commands
  import opened Authority
  import opened Kernel
  import opened PlanProgress

  /** What a reducer run in place has to do with the function that specifies it. */
  predicate Agrees(spec: Result<Reduced>, out: Result<Response>, after: Snapshot, events: seq<Event>) {
    match spec
    case Err(failure) => out == Err(failure)
    case Ok(t) => out == Ok(t.response) && after == t.snapshot && events == t.events
  }

  class Draft {
    var snapshot: Snapshot
    var events: seq<Event>

    /** `copy.deepcopy(snapshot)` */
    constructor (s: Snapshot)
      ensures snapshot == s && events == []
    {
      snapshot, events := s, [];
    }

    /** The part of `_observe_external_effect` that reads the state off a receipt and binds the host resource. */
    method Sight(receipt: Receipt, prior: Observation, hostRef: Str, ref: Str) returns (out: Result<Observation>)
      requires events == []
      requires receipt.outcome == SeenObserved ==> receipt.resource.Some?
      modifies this
      ensures match Sighted(receipt, prior, ref)
              case Err(failure) => out == Err(failure)
              case Ok(seen) =>
                var unbound := seen.0 == Observed && hostRef !in old(snapshot).hosts;
                if seen.0 == Observed && !unbound && old(snapshot).hosts[hostRef].receipt != receipt.ref
                then out == Err(Rejected(ReceiptIdentityMismatch))
                else out == Ok(seen.0)
                     && events == [seen.1] + (if unbound then [HostResourceBound(hostRef)] else [])
                     && snapshot == old(snapshot).(
                          hosts := if unbound
                                   then old(snapshot).hosts[hostRef := Host(receipt.resource.value, receipt.ref, 1)]
                                   else old(snapshot).hosts)
    {
      if receipt.outcome == SeenObserved && receipt.trust == StrictTrust {
        events := [if prior in {Unknown, Unverifiable} then LateExternalEffectObserved(ref)
                   else ExternalEffectObserved(ref)];
        if hostRef !in snapshot.hosts {
          snapshot := snapshot.(hosts := snapshot.hosts[hostRef := Host(receipt.resource.value, receipt.ref, 1)]);
          events := events + [HostResourceBound(hostRef)];
        } else if snapshot.hosts[hostRef].receipt != receipt.ref {
          return Err(Rejected(ReceiptIdentityMismatch));
        }
        return Ok(Observed);
      }
      if receipt.outcome == SeenUnknown {
        :- Need(prior == Committed, InvalidTransition);
        events := [ExternalEffectUnknown(ref)];
        return Ok(Unknown);
      }
      if receipt.trust == CooperativeTrust {
        :- Need(prior == Committed, InvalidTransition);
        events := [ExternalEffectUnverifiable(ref)];
        return Ok(Unverifiable);
      }
      out := Err(Rejected(ReceiptIssuerUntrusted));
    }

    /** The part of `_observe_external_effect` that moves an attempt and its effect. */
    method Mark(ref: Str, effect: Effect, attempt: Attempt, receiptRef: Str, state: Observation)
      modifies this`snapshot
      ensures snapshot == Marked(old(snapshot), ref, effect, attempt, receiptRef, state)
    {
      snapshot := snapshot.(attempts := snapshot.attempts[effect.attemptRef := attempt.(
                              receipt := Some(receiptRef), revision := attempt.revision + 1, state := state)]);
      snapshot := snapshot.(effects := snapshot.effects[ref := effect.(
                              receipt := Some(receiptRef), revision := effect.revision + 1, state := state)]);
    }

    method ObserveExternalEffect(r: Request, ctx: Context) returns (out: Result<Response>)
      requires events == []
      modifies this
      ensures Agrees(AfterObserve(old(snapshot), r, ctx), out, snapshot, events)
    {
      hide ReceiptOfEffect, Sighted, Marked;
      var effect :- Get(snapshot.effects, r.subject);
      var attempt :- Get(snapshot.attempts, effect.attemptRef);
      var receipt :- ReceiptOfEffect(r, ctx, effect, attempt);
      var state :- Sight(receipt, attempt.state, effect.hostRef, r.subject);
      Mark(r.subject, effect, attempt, receipt.ref, state);
      out := Ok(ObservedAs(state, if state == Observed then Some(effect.hostRef) else None));
    }

    method StageExternalResult(r: Request, outcome: Outcome, summary: string) returns (out: Result<Response>)
      requires events == []
      modifies this
      ensures Agrees(AfterStage(old(snapshot), r, outcome, summary), out, snapshot, events)
    {
      hide Blank, IsHex64;
      var effect :- Get(snapshot.effects, r.subject);
      :- Need(effect.state != Committed, InvalidTransition);
      var resultRef :- Bound(r.allocate, NewResult);
      var reportRef :- Bound(r.allocate, NewReport);
      var observation :- Bound(r.resolved, SourceObservation);
      :- Need(IsHex64(observation), ReceiptIdentityMismatch);
      :- Need(!Blank(summary), ResourceLimitExceeded);
      var active := Only(ActiveGoals(snapshot.goals));
      :- Need(active.Some?, InvalidTransition);
      snapshot := snapshot.(results := snapshot.results[resultRef := ResultRec(
                              effect.attemptRef, r.subject, active.value, outcome, reportRef, observation, None, 1, Staged)]);
      snapshot := snapshot.(reports := snapshot.reports[reportRef := Report(
                              r.actor, Digest(ReportContent(outcome, summary)), resultRef, 1, false)]);
      snapshot := snapshot.(currentResult := Some(resultRef));
      events := [ResultStaged(resultRef), ReportStaged(reportRef)];
      out := Ok(StagedAs(resultRef, reportRef));
    }

    /** The part of `_acknowledge_result` that files the artifact and moves the report and the result. */
    method File(ref: Str, result: ResultRec, report: Report, artifactRef: Str, artifact: Artifact)
      modifies this`snapshot
      ensures snapshot == old(snapshot).(
                artifacts := old(snapshot).artifacts[artifactRef := artifact],
                reports := old(snapshot).reports[result.reportRef := report.(revision := report.revision + 1,
                                                                            accepted := true)],
                results := old(snapshot).results[ref := result.(artifactRef := Some(artifactRef), state := Acknowledged,
                                                               revision := result.revision + 1)])
    {
      snapshot := snapshot.(artifacts := snapshot.artifacts[artifactRef := artifact]);
      snapshot := snapshot.(reports := snapshot.reports[result.reportRef := report.(
                              revision := report.revision + 1, accepted := true)]);
      snapshot := snapshot.(results := snapshot.results[ref := result.(
                              artifactRef := Some(artifactRef), revision := result.revision + 1, state := Acknowledged)]);
    }

    method AcknowledgeResult(r: Request, ctx: Context) returns (out: Result<Response>)
      requires events == []
      modifies this
      ensures Agrees(AfterAcknowledge(old(snapshot), r, ctx), out, snapshot, events)
    {
      hide Acknowledgement;
      var result :- Get(snapshot.results, r.subject);
      var report :- Get(snapshot.reports, result.reportRef);
      :- Need(result.state == Staged && !report.accepted, InvalidTransition);
      var acknowledged :- Acknowledgement(r, ctx);
      var (artifactRef, artifact) := acknowledged;
      File(r.subject, result, report, artifactRef, artifact);
      if artifact.capture == CAPTURED { events := events + [ArtifactCaptured(artifactRef)]; }
      events := events + [if artifact.verified then ArtifactVerified(artifactRef) else ArtifactUnverifiable(artifactRef)];
      events := events + [ReportAccepted(result.reportRef), ResultAcknowledged(r.subject)];
      out := Ok(AcknowledgedAs(artifactRef));
    }

    method RecordReview(r: Request, verdict: Verdict) returns (out: Result<Response>)
      requires events == []
      modifies this
      ensures Agrees(AfterReview(old(snapshot), r, verdict), out, snapshot, events)
    {
      hide ResultChain;
      var result :- Get(snapshot.results, r.subject);
      :- Need(result.state == Acknowledged, InvalidTransition);
      var reviewRef :- Bound(r.allocate, NewReview);
      var chain :- ResultChain(snapshot);
      if result.artifactRef.None? { return Err(Fault); }
      snapshot := snapshot.(reviews := snapshot.reviews[reviewRef := Review(
                              result.artifactRef.value, result.reportRef, r.subject, r.actor,
                              Digest(SubjectChainOf(chain)), 1, verdict)]);
      events := [ReviewRecorded(reviewRef)];
      out := Ok(ReviewedAs(reviewRef));
    }

    /** Adds a goal with its effect and attempt, and makes it the active one. */
    method Place(goal: Goal, effect: Effect, attempt: Attempt)
      modifies this`snapshot
      ensures snapshot == old(snapshot).(
                goals := old(snapshot).goals[goal.chain.goalRef := goal],
                effects := old(snapshot).effects[goal.chain.effectRef := effect],
                attempts := old(snapshot).attempts[goal.chain.attemptRef := attempt],
                plan := old(snapshot).plan.(activeGoalRef := goal.chain.goalRef, activeIndex := goal.order))
    {
      snapshot := snapshot.(goals := snapshot.goals[goal.chain.goalRef := goal]);
      snapshot := snapshot.(effects := snapshot.effects[goal.chain.effectRef := effect]);
      snapshot := snapshot.(attempts := snapshot.attempts[goal.chain.attemptRef := attempt]);
      snapshot := snapshot.(plan := snapshot.plan.(activeGoalRef := goal.chain.goalRef, activeIndex := goal.order));
    }

    /** The part of `_advance_goal` that materialises the next goal. */
    method MaterializeNext(r: Request, from: Str, to: GoalState) returns (out: Result<Str>)
      requires 0 <= snapshot.plan.activeIndex
      requires snapshot.plan.activeIndex + 1 < |snapshot.plan.ids| == |snapshot.plan.slices|
      modifies this`snapshot
      ensures var spec := NextGoal(old(snapshot), r, from, to);
              match spec
              case Err(failure) => out == Err(failure)
              case Ok(next) =>
                out == Ok(next.1) && snapshot == next.0 && next.1 in snapshot.goals
    {
      hide AllocatesChain, Is64;
      var next := snapshot.plan.activeIndex + 1;
      var goalId, slice := snapshot.plan.ids[next], snapshot.plan.slices[next];
      var chain := GoalChain(snapshot.loopRef, snapshot.plan.planDigest, goalId, slice);
      var attemptsOfNext := NextMaxAttemptsOf(r.resolved);
      :- Need(attemptsOfNext.Some?, InvalidCommand);
      :- Need(DescribesNext(r, snapshot.plan, chain, goalId, slice), InvalidTransition);
      :- Need(MaterializesNext(r, snapshot, chain), InvalidCommand);
      var goal := Goal(chain, Some(from), goalId, slice, attemptsOfNext.value,
                       r.resolved[NextObjective], next, NextRequirementOf(r.resolved).value, 1, Active);
      var request := ProviderRequest(next, r.resolved[BaselineBlob], goalId, slice,
                                     snapshot.plan.planDigest, snapshot.plan.indexDigest, Following(to),
                                     chain.providerTarget, snapshot.plan.workspace);
      Place(goal, NewEffectRecord(chain, CREATE_TASK, Some(ResolvedBaseline(r))),
            NewAttemptRecord(r, chain, CREATE_TASK, next + 1, request, r.resolved[RequestDigest]));
      out := Ok(chain.goalRef);
    }

    method AdvanceGoal(r: Request, to: GoalState) returns (out: Result<Response>)
      requires events == []
      modifies this
      ensures Agrees(AfterAdvance(old(snapshot), r, to), out, snapshot, events)
    {
      hide NextGoal, MayAdvance;
      var reviewRef :- Bound(r.resolved, ReviewBinding);
      :- Need(r.subject in snapshot.goals && reviewRef in snapshot.reviews, InvalidTransition);
      var goal, review := snapshot.goals[r.subject], snapshot.reviews[reviewRef];
      :- Need(review.resultRef in snapshot.results, InvalidTransition);
      var result := snapshot.results[review.resultRef];
      :- Need(goal.state == Active, InvalidTransition);
      :- Need(result.state == Acknowledged && review.reportRef == result.reportRef
              && Some(review.artifactRef) == result.artifactRef, InvalidTransition);
      :- Need(result.effectRef in snapshot.effects, InvalidTransition);
      :- Need(result.goalRef == r.subject && snapshot.effects[result.effectRef].goalRef == r.subject, InvalidTransition);
      :- Need(MayAdvance(goal, result.outcome, review, to), InvalidTransition);
      snapshot := snapshot.(goals := snapshot.goals[r.subject := goal.(revision := goal.revision + 1, state := to)]);
      events := [GoalAdvanced(r.subject)];
      var nextRef: Option<Str> := None;
      if to in {Done, Skipped} {
        var plan := snapshot.plan;
        :- Need(0 <= plan.activeIndex < |plan.ids| && |plan.ids| == plan.goalCount && |plan.slices| == |plan.ids|
                && plan.activeGoalRef == r.subject, InternalInvariantViolation);
        if snapshot.plan.activeIndex + 1 < |snapshot.plan.ids| {
          var next :- MaterializeNext(r, r.subject, to);
          nextRef := Some(next);
          events := events + [GoalRegistered(next), GoalActivated(next),
                              ExternalEffectPrepared(snapshot.goals[next].chain.effectRef)];
        }
      }
      if to == Skipped { events := events + [GoalSkipped(r.subject)]; }
      out := Ok(AdvancedTo(to, nextRef));
    }

    /** The part of `_record_policy_decision` that builds the repair chain of the active goal. */
    method BuildRepair(r: Request, goalRef: Str, ordinal: nat) returns (out: Result<Chain>)
      requires goalRef in snapshot.goals
      modifies this`snapshot
      ensures match ScheduleRepair(old(snapshot), r, goalRef, ordinal)
              case Err(failure) => out == Err(failure)
              case Ok(scheduled) => out == Ok(scheduled.1) && snapshot == scheduled.0
    {
      hide RepairAllocation, Is64;
      var goal := snapshot.goals[goalRef];
      var chain := RepairChain(RepairIdentity(snapshot.loopRef, snapshot.plan.planDigest, goalRef, goal.goalId, ordinal));
      :- Need(r.allocate == RepairAllocation(chain), InvalidCommand);
      :- Need(MaterializesRepair(snapshot, r, chain), InvalidCommand);
      snapshot := snapshot.(goals := snapshot.goals[goalRef := goal.(chain := chain)]);
      snapshot := snapshot.(effects := snapshot.effects[chain.effectRef :=
                              NewEffectRecord(chain, CREATE_TASK, Some(ResolvedBaseline(r)))]);
      var request := ProviderRequest(snapshot.plan.activeIndex, r.resolved[BaselineBlob], goal.goalId, goal.slice,
                                     snapshot.plan.planDigest, snapshot.plan.indexDigest, Repaired,
                                     chain.providerTarget, snapshot.plan.workspace);
      snapshot := snapshot.(attempts := snapshot.attempts[chain.attemptRef :=
                              NewAttemptRecord(r, chain, CREATE_TASK, |snapshot.attempts| + 1, request,
                                               r.resolved[RequestDigest])]);
      out := Ok(chain);
    }

    /** The branch that authorises a repair, and schedules it when references are allocated. */
    method AuthorizeRepair(r: Request, goalRef: Str, prior: Policy, card: Str, failure: Str)
      returns (out: Result<Response>)
      requires events == [HumanDecisionRecorded(ContinueRepair)] && goalRef in snapshot.goals
      modifies this
      ensures Agrees(AfterAuthorizedRepair(old(snapshot), r, goalRef, prior, card, failure), out, snapshot, events)
    {
      hide ScheduleRepair;
      var policy := RecordRepair(prior, card, failure, prior.repairAttempts + 1, Authorized);
      events := events + [RepairAuthorized(policy.repairAttempts)];
      if r.allocate != map[] {
        var chain :- BuildRepair(r, goalRef, policy.repairAttempts);
        policy := policy.(state := RepairScheduled);
        events := events + [RepairAttemptScheduled(chain.attemptRef, goalRef)];
      }
      snapshot := snapshot.(policy := Some(policy));
      out := Ok(DecidedAs(ContinueRepair, Some(policy.state)));
    }

    /** The repair branch of `_record_policy_decision`, from the policy record it starts with. */
    method ContinueWithRepair(r: Request, prior: Policy, fingerprint: string, card: Str) returns (out: Result<Response>)
      requires events == [HumanDecisionRecorded(ContinueRepair)]
      modifies this
      ensures Agrees(AfterContinueRepair(old(snapshot), r, prior, fingerprint, card), out, snapshot, events)
    {
      hide RepairWanted, RepairBudgets, RecordRepair, SameFailures, AfterAuthorizedRepair;
      var active := Only(ActiveGoals(snapshot.goals));
      :- Need(active.Some? && RepairWanted(snapshot, snapshot.goals[active.value], fingerprint), InvalidTransition);
      var policy := prior;
      if policy.goalRef != Some(active.value) {
        policy := policy.(goalRef := Some(active.value), lastFailure := None, repairAttempts := 0, sameFailures := 0);
      }
      var budgets :- RepairBudgets(r.resolved);
      var failure := Digest(Fingerprint(fingerprint));
      if policy.repairAttempts >= budgets.0 || SameFailures(policy, failure) >= budgets.1 {
        policy := RecordRepair(policy, card, failure, policy.repairAttempts, Exhausted);
        events := events + [RepairExhausted];
        snapshot := snapshot.(policy := Some(policy));
        out := Ok(DecidedAs(ContinueRepair, Some(Exhausted)));
      } else {
        out := AuthorizeRepair(r, active.value, policy, card, failure);
      }
    }

    method RecordPolicyDecision(r: Request, ctx: Context, decision: Decision, fingerprint: string)
      returns (out: Result<Response>)
      requires events == []
      modifies this
      ensures Agrees(AfterDecision(old(snapshot), r, ctx, decision, fingerprint), out, snapshot, events)
    {
      hide PolicyContextOf, AfterContinueRepair;
      :- Need(|fingerprint| <= 512, InvalidCommand);
      var context :- Bound(r.resolved, ContextDigest);
      var card :- Bound(r.resolved, DecisionCard);
      :- Need(context == Digest(HumanContext(PolicyContextOf(snapshot, ctx.latest))) && Truthy(card),
              StaleSubjectRevision);
      var policy := if snapshot.policy.Some? then snapshot.policy.value else INITIAL_POLICY;
      events := [HumanDecisionRecorded(decision)];
      if decision == ContinueRepair {
        out := ContinueWithRepair(r, policy, fingerprint, card);
      } else {
        policy := policy.(card := Some(card), revision := policy.revision + 1, lastDecision := Some(decision),
                          state := ExecutionPending);
        snapshot := snapshot.(policy := Some(policy));
        out := Ok(DecidedAs(decision, None));
      }
    }

    method PauseLoop(reason: string, wait: Option<WaitKind>) returns (out: Result<Response>)
      requires events == []
      modifies this
      ensures Agrees(AfterPause(old(snapshot), reason, wait), out, snapshot, events)
    {
      hide ValidReason;
      :- Need(snapshot.execution.state == Running, InvalidTransition);
      :- Need(ValidReason(reason), InvalidCommand);
      var digest := Digest(ReasonText("loopskill-pause-reason-v1\n", reason));
      snapshot := snapshot.(execution := snapshot.execution.(
                              pauseReason := Some(digest), revision := snapshot.execution.revision + 1, state := Paused));
      if wait.Some? { snapshot := snapshot.(execution := snapshot.execution.(wait := wait)); }
      events := [LoopPaused(digest)];
      if wait == Some(WaitBudget) { events := [BudgetWaiting] + events; }
      out := Ok(NowIn(Paused));
    }

    /** The budget branch of `_resume_loop`. */
    method Extend(f: ResumeFields) returns (out: Result<Str>)
      requires f.BudgetFields?
      modifies this`snapshot
      ensures match ExtendBudget(old(snapshot), f)
              case Err(failure) => out == Err(failure)
              case Ok(extended) => out == Ok(extended.1) && snapshot == old(snapshot).(plan := extended.0)
    {
      hide ValidExtension;
      var budget := snapshot.plan.budget;
      :- Need(ValidExtension(budget, f), InvalidCommand);
      var prior := Digest(RuntimeBudget(budget.invocations, budget.seconds));
      :- Need(f.prior == prior, StaleSubjectRevision);
      budget := budget.(invocations := f.invocations, seconds := f.seconds);
      snapshot := snapshot.(plan := snapshot.plan.(budget := budget));
      var digest := Digest(BudgetExtension(snapshot.loopRef, f.invocations, f.seconds, prior, f.reason));
      var revision := 1;
      if snapshot.plan.extension.Some? { revision := snapshot.plan.extension.value.revision + 1; }
      snapshot := snapshot.(plan := snapshot.plan.(extension := Some(Extension(digest, f.reason, revision))));
      out := Ok(digest);
    }

    method ResumeLoop(fields: ResumeFields) returns (out: Result<Response>)
      requires events == []
      modifies this
      ensures Agrees(AfterResume(old(snapshot), fields), out, snapshot, events)
    {
      hide ExtendBudget, IsHex64;
      :- Need(snapshot.execution.state == Paused, InvalidTransition);
      var wait := snapshot.execution.wait;
      if wait == Some(WaitBudget) {
        :- Need(fields.BudgetFields?, InvalidCommand);
        var digest :- Extend(fields);
        events := [BudgetExtended(digest)];
      } else if wait in {Some(WaitHuman), Some(WaitTime)} {
        :- Need(fields.GateEvidence? && IsHex64(fields.gate), InvalidCommand);
        events := [ControllerGateSatisfied(fields.gate)];
      } else {
        :- Need(fields == NoFields, InvalidCommand);
      }
      snapshot := snapshot.(execution := snapshot.execution.(pauseReason := None, wait := None, state := Running,
                                                             revision := snapshot.execution.revision + 1));
      events := events + [LoopResumed];
      out := Ok(NowIn(Running));
    }

    method StopLoop(reason: string) returns (out: Result<Response>)
      requires events == []
      modifies this
      ensures Agrees(AfterStop(old(snapshot), reason), out, snapshot, events)
    {
      hide ValidReason;
      :- Need(snapshot.execution.state in {Running, Paused}, InvalidTransition);
      :- Need(ValidReason(reason), InvalidCommand);
      var active := Only(ActiveGoals(snapshot.goals));
      :- Need(active.Some?, InvalidTransition);
      assert active.value in ActiveGoals(snapshot.goals);
      var goal := snapshot.goals[active.value];
      var digest := Digest(ReasonText("loopskill-stop-reason-v1\n", reason));
      snapshot := snapshot.(goals := snapshot.goals[active.value := goal.(revision := goal.revision + 1, state := Halted)]);
      snapshot := snapshot.(execution := snapshot.execution.(
                              disposition := Some(Stopped), revision := snapshot.execution.revision + 1,
                              state := Terminal, stopReason := Some(digest)));
      snapshot := snapshot.(closure := Closure(Local, None, None, snapshot.closure.revision + 1));
      events := [GoalAdvanced(active.value), LoopStopped(digest)];
      out := Ok(NowIn(Terminal));
    }

    /** The dictionary of positions that `_revise_goal_plan` builds from the new order. */
    method Positions(ids: seq<Str>) returns (positions: map<Str, nat>)
      ensures forall id :: id in positions <==> id in ids
      ensures forall id :: id in ids ==> positions[id] == PositionOf(ids, id)
    {
      positions := map[];
      for index := 0 to |ids|
        invariant forall id :: id in positions <==> id in ids[..index]
        invariant forall id :: id in ids[..index] ==> positions[id] == PositionOf(ids[..index], id)
      {
        assert ids[..index + 1] == ids[..index] + [ids[index]];
        assert ids[..index + 1][..index] == ids[..index];
        positions := positions[ids[index] := index];
      }
      assert ids[..|ids|] == ids;
    }

    /** Gives every goal whose id is listed its position in the new order. */
    method Reorder(ids: seq<Str>, positions: map<Str, nat>)
      requires forall id :: id in positions <==> id in ids
      requires forall id :: id in ids ==> positions[id] == PositionOf(ids, id)
      modifies this`snapshot
      ensures snapshot == old(snapshot).(goals := Reordered(old(snapshot).goals, ids))
    {
      hide PositionOf;
      var goals, rest := snapshot.goals, snapshot.goals.Keys;
      ghost var before := snapshot.goals;
      while rest != {}
        invariant snapshot == old(snapshot).(goals := goals)
        invariant rest <= before.Keys == goals.Keys
        invariant forall g :: g in rest ==> goals[g] == before[g]
        invariant forall g :: g in before && g !in rest ==> goals[g] == Reordered(before, ids)[g]
        decreases |rest|
      {
        var g :| g in rest;
        if goals[g].goalId in positions {
          goals := goals[g := goals[g].(order := positions[goals[g].goalId])];
          snapshot := snapshot.(goals := goals);
        }
        rest := rest - {g};
      }
      assert goals == Reordered(before, ids);
    }

    method ReviseGoalPlan(ids: seq<Str>, slices: seq<Str>, indexDigest: Str, revision: int, reason: string)
      returns (out: Result<Response>)
      requires events == []
      modifies this
      ensures Agrees(AfterRevise(old(snapshot), ids, slices, indexDigest, revision, reason), out, snapshot, events)
    {
      hide ValidRevision, PositionOf;
      :- Need(snapshot.plan.adaptive, InvalidTransition);
      :- Need(ValidRevision(snapshot.plan, ids, slices, indexDigest, revision, reason), InvalidCommand);
      RevisionIsPositive(snapshot.plan, ids, slices, indexDigest, revision, reason);
      snapshot := snapshot.(plan := snapshot.plan.(
                              ids := ids, slices := slices, indexDigest := indexDigest, revision := revision));
      var positions := Positions(ids);
      Reorder(ids, positions);
      events := [RoadmapRevised(revision)];
      out := Ok(RevisedTo(revision));
    }

    /** The part of `_prepare_finalization` that changes the snapshot. */
    method Register(ref: Str, finalization: Finalization)
      modifies this`snapshot
      ensures snapshot == old(snapshot).(
                finalizations := old(snapshot).finalizations[ref := finalization],
                execution := old(snapshot).execution.(revision := old(snapshot).execution.revision + 1,
                                                      state := Finalizing))
    {
      snapshot := snapshot.(finalizations := snapshot.finalizations[ref := finalization]);
      snapshot := snapshot.(execution := snapshot.execution.(revision := snapshot.execution.revision + 1,
                                                             state := Finalizing));
    }

    method PrepareFinalization(r: Request, d: Disposition) returns (out: Result<Response>)
      requires events == []
      modifies this
      ensures Agrees(AfterPrepare(old(snapshot), r, d), out, snapshot, events)
    {
      hide FinalChain, CheckDisposition;
      var s := snapshot;
      var chain :- FinalChain(s);
      FinalChainHasReview(s);
      var review :- Get(snapshot.reviews, chain.review.value.ref);
      var goal :- Get(snapshot.goals, chain.goal.ref);
      :- Need(forall g :: g in snapshot.goals ==> Finished(snapshot.goals[g]), FinalizationPreconditionFailed);
      var result :- Get(snapshot.results, chain.result.ref);
      :- Need(goal.state in {Done, Skipped, Failed, Limited}, FinalizationPreconditionFailed);
      var effect :- Get(snapshot.effects, chain.effect.ref);
      :- CheckDisposition(s, goal, result, review, effect, d);
      var finalizationRef :- Bound(r.allocate, NewFinalization);
      Register(finalizationRef, Finalization(
                 chain.artifact.ref, result.attemptRef, result.effectRef, chain.goal.ref, result.reportRef,
                 chain.result.ref, chain.review.value.ref, Digest(SubjectChainOf(chain)), d, NoStrength, false, 1));
      events := [FinalizationPrepared(finalizationRef)];
      out := Ok(PreparedAs(finalizationRef));
    }

    /** The part of `_close_execution` that changes the snapshot. */
    method Seal(ref: Str, f: Finalization, strength: Strength, receiptRef: Str)
      modifies this`snapshot
      ensures snapshot == old(snapshot).(
                finalizations := old(snapshot).finalizations[ref := f.(strength := strength, closed := true,
                                                                      revision := f.revision + 1)],
                execution := old(snapshot).execution.(disposition := Some(f.disposition), state := Terminal,
                                                      revision := old(snapshot).execution.revision + 1),
                closure := Closure(strength, Some(ref), Some(receiptRef), 1))
    {
      snapshot := snapshot.(finalizations := snapshot.finalizations[ref := f.(
                              strength := strength, closed := true, revision := f.revision + 1)]);
      snapshot := snapshot.(execution := snapshot.execution.(
                              disposition := Some(f.disposition), revision := snapshot.execution.revision + 1,
                              state := Terminal));
      snapshot := snapshot.(closure := Closure(strength, Some(ref), Some(receiptRef), 1));
    }

    method CloseExecution(r: Request, ctx: Context) returns (out: Result<Response>)
      requires events == []
      modifies this
      ensures Agrees(AfterClose(old(snapshot), r, ctx), out, snapshot, events)
    {
      hide ClosingEvidence;
      var finalization :- Get(snapshot.finalizations, r.subject);
      :- Need(!finalization.closed, InvalidTransition);
      var evidence :- ClosingEvidence(snapshot, r, ctx, finalization);
      var (receipt, strict) := evidence;
      var strength := if strict then Strict else Cooperative;
      Seal(r.subject, finalization, strength, receipt.ref);
      events := [ExecutionFinalized(r.subject)];
      if strict { events := events + [StrictFinalizationAcknowledged(r.subject)]; }
      out := Ok(ClosedAs(strength, finalization.disposition));
    }

    method StrengthenClosureAssurance(r: Request, ctx: Context) returns (out: Result<Response>)
      requires events == []
      modifies this
      ensures Agrees(AfterStrengthen(old(snapshot), r, ctx), out, snapshot, events)
    {
      hide ReceiptFor;
      var finalization :- Get(snapshot.finalizations, r.subject);
      :- Need(snapshot.execution.state == Terminal && finalization.closed && finalization.strength == Cooperative
              && snapshot.closure.strength == Cooperative && snapshot.closure.finalizationRef == Some(r.subject),
              InvalidTransition);
      var receipt :- ReceiptFor(r, ctx, About(LIFECYCLE_READBACK, r.subject, None, None, Some(finalization.chainDigest)));
      :- Need(receipt.trust == StrictTrust && receipt.outcome == SeenAcknowledged, FinalizationPreconditionFailed);
      snapshot := snapshot.(finalizations := snapshot.finalizations[r.subject := finalization.(
                              strength := Strict, revision := finalization.revision + 1)]);
      snapshot := snapshot.(closure := Closure(Strict, Some(r.subject), Some(receipt.ref), snapshot.closure.revision + 1));
      events := [ClosureAssuranceStrengthened(r.subject), StrictFinalizationAcknowledged(r.subject)];
      out := Ok(ClosedAs(Strict, finalization.disposition));
    }

    /** The reducer table. */
    method Dispatch(r: Request, ctx: Context) returns (out: Result<Response>)
      requires events == []
      modifies this
      ensures Agrees(Kernel.Dispatch(old(snapshot), r, ctx), out, snapshot, events)
    {
      hide AfterObserve, AfterStage, AfterAcknowledge, AfterReview, AfterDecision, AfterAdvance, AfterPause, AfterResume,
           AfterRevise, AfterStop, AfterPrepare, AfterClose, AfterStrengthen;
      match r.payload
      case Create(_) => out := Err(Rejected(InvalidTransition));
      case Observe => out := ObserveExternalEffect(r, ctx);
      case Stage(outcome, summary) => out := StageExternalResult(r, outcome, summary);
      case Acknowledge => out := AcknowledgeResult(r, ctx);
      case Judge(verdict) => out := RecordReview(r, verdict);
      case Decide(decision, fingerprint) => out := RecordPolicyDecision(r, ctx, decision, fingerprint);
      case Advance(to) => out := AdvanceGoal(r, to);
      case Pause(reason, wait) => out := PauseLoop(reason, wait);
      case Resume(fields) => out := ResumeLoop(fields);
      case Revise(ids, slices, index, revision, reason) => out := ReviseGoalPlan(ids, slices, index, revision, reason);
      case StopNow(reason) => out := StopLoop(reason);
      case Prepare(d) => out := PrepareFinalization(r, d);
      case Close => out := CloseExecution(r, ctx);
      case Strengthen => out := StrengthenClosureAssurance(r, ctx);
    }
  }

  /** `reduce_command`: the checks, the reducer on a copy, and the new loop revision. */
  method ReduceCommand(s: Option<Snapshot>, c: Command, ctx: Context) returns (out: Result<Reduced>)
    ensures out == Reduce(s, c, ctx)
  {
    hide ValidateCommand, ValidateAuthority, ValidateReferences, Kernel.Dispatch, AfterCreate;
    var r := c.request;
    :- ValidateCommand(c);
    :- ValidateAuthority(r, ctx, s);
    :- Need(s.Some? || r.payload.Create?, InvalidTransition);
    :- ValidateReferences(s, r);
    var reduced;
    if s.None? {
      reduced :- AfterCreate(None, r, ctx, r.payload.startup);
    } else {
      var draft := new Draft(s.value);
      var response :- draft.Dispatch(r, ctx);
      reduced := Reduced(draft.snapshot, draft.events, response);
    }
    :- Need(|reduced.events| <= MAX_EVENTS_PER_COMMAND, ResourceLimitExceeded);
    out := Ok(reduced.(snapshot := reduced.snapshot.(loopRevision := r.expectedRevision + 1)));
  }

  lemma RevisionIsPositive(p: Plan, ids: seq<Str>, slices: seq<Str>, indexDigest: Str, revision: int, reason: string)
    requires ValidRevision(p, ids, slices, indexDigest, revision, reason)
    ensures revision == p.revision + 1
  {
  }

  lemma FinalChainHasReview(s: Snapshot)
    requires FinalChain(s).Ok?
    ensures FinalChain(s).value.review.Some?
  {
    hide ResultChain;
  }
}
