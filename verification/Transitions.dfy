/** What each accepted command changes, stated once so that the invariants need not reopen the reducers. */
module Transitions {
  import opened Base
  import opened Records
  import opened Commands
  import opened Authority
  import opened Kernel

  // Counting events -------------------------------------------------------------------------------------------

  datatype Tag = Scheduling | Authorizing | Extending

  predicate Tagged(e: Event, tag: Tag) {
    match tag
    case Scheduling => e.RepairAttemptScheduled?
    case Authorizing => e.RepairAuthorized?
    case Extending => e.BudgetExtended?
  }

  function Count(events: seq<Event>, tag: Tag): nat {
    if events == [] then 0
    else Count(events[..|events| - 1], tag) + if Tagged(events[|events| - 1], tag) then 1 else 0
  }

  lemma {:induction false} CountNone(events: seq<Event>, tag: Tag)
    requires forall i :: 0 <= i < |events| ==> !Tagged(events[i], tag)
    ensures Count(events, tag) == 0
  {
    if events != [] { CountNone(events[..|events| - 1], tag); }
  }

  lemma {:induction false} CountOne(events: seq<Event>, tag: Tag, k: nat)
    requires k < |events| && forall i :: 0 <= i < |events| ==> (Tagged(events[i], tag) <==> i == k)
    ensures Count(events, tag) == 1
  {
    if k == |events| - 1 { CountNone(events[..k], tag); } else { CountOne(events[..|events| - 1], tag, k); }
  }

  /** No event of a command is of a counted kind. */
  predicate Quiet(events: seq<Event>) { forall i, tag :: 0 <= i < |events| ==> !Tagged(events[i], tag) }

  lemma QuietCounts(events: seq<Event>)
    requires Quiet(events)
    ensures Count(events, Scheduling) == Count(events, Authorizing) == Count(events, Extending) == 0
  {
    CountNone(events, Scheduling);
    CountNone(events, Authorizing);
    CountNone(events, Extending);
  }

  // A new effect with its attempt ---------------------------------------------------------------------------

  /** `u` extends `s` by the effect and the attempt of a chain, both fresh. */
  predicate Launches(s: Snapshot, u: Snapshot, chain: Chain) {
    && chain.effectRef !in s.effects && chain.attemptRef !in s.attempts
    && chain.effectRef in u.effects && chain.attemptRef in u.attempts
    && u.effects == s.effects[chain.effectRef := u.effects[chain.effectRef]]
    && u.attempts == s.attempts[chain.attemptRef := u.attempts[chain.attemptRef]]
    && FreshPair(u.effects[chain.effectRef], u.attempts[chain.attemptRef], chain)
  }

  predicate FreshPair(e: Effect, a: Attempt, chain: Chain) {
    && e.attemptRef == chain.attemptRef && e.goalRef == chain.goalRef && e.hostRef == chain.hostRef
    && e.revision == a.revision == 1 && e.state == a.state == Committed && e.receipt == a.receipt == None
    && a.effectRef == chain.effectRef && a.key == chain.providerKey
    && e.action == a.action && e.target == a.target
  }

  /** Records that neither an advance nor a repair touches. */
  predicate SameEvidence(s: Snapshot, u: Snapshot) {
    && u.loopRef == s.loopRef && u.hosts == s.hosts && u.results == s.results && u.reports == s.reports
    && u.artifacts == s.artifacts && u.reviews == s.reviews && u.finalizations == s.finalizations
    && u.execution == s.execution && u.closure == s.closure && u.currentResult == s.currentResult
  }

  // CreateLoop ----------------------------------------------------------------------------------------------

  predicate CreatesLoop(r: Request, c: Startup, u: Snapshot) {
    var chain := GoalChain(r.loop, c.planDigest, c.goalId, c.slice);
    && u.loopRef == r.loop
    && u.goals == map[chain.goalRef := InitialGoal(c, chain)]
    && u.plan == InitialPlan(c, chain.goalRef)
    && u.effects.Keys == {chain.effectRef} && u.attempts.Keys == {chain.attemptRef}
    && FreshPair(u.effects[chain.effectRef], u.attempts[chain.attemptRef], chain)
    && u.hosts == map[] && u.results == map[] && u.reports == map[] && u.artifacts == map[]
    && u.reviews == map[] && u.finalizations == map[]
    && u.execution == Execution(Running, None, 1, None, None, None)
    && u.closure == Closure(NoStrength, None, None, 0)
    && u.policy == None && u.currentResult == None
  }

  lemma CreateDelta(r: Request, ctx: Context, c: Startup, t: Reduced)
    requires AfterCreate(None, r, ctx, c) == Ok(t)
    ensures ValidPlanIdentity(c) && CreatesLoop(r, c, t.snapshot)
  {
    hide StartupReceipt, StartupBaseline, ValidPlanIdentity, ValidObjective, Is64;
  }

  // RecordExternalEffectObservation -------------------------------------------------------------------------

  /** The only moves of an attempt: out of COMMITTED, or to OBSERVED. */
  predicate MayObserve(prior: Observation, next: Observation) {
    next == Observed || (prior == Committed && next != Committed)
  }

  predicate ObservesPair(s: Snapshot, u: Snapshot, e: Str) {
    && e in s.effects && s.effects[e].attemptRef in s.attempts
    && var effect := s.effects[e];
       var attempt := s.attempts[effect.attemptRef];
       && e in u.effects && effect.attemptRef in u.attempts
       && var effect' := u.effects[e];
          var attempt' := u.attempts[effect.attemptRef];
          && effect' == effect.(receipt := effect'.receipt, revision := effect.revision + 1, state := effect'.state)
          && attempt' == attempt.(receipt := effect'.receipt, revision := attempt.revision + 1, state := effect'.state)
          && effect'.receipt.Some? && MayObserve(attempt.state, effect'.state)
          && u == s.(hosts := u.hosts, effects := s.effects[e := effect'],
                     attempts := s.attempts[effect.attemptRef := attempt'])
          && u.hosts.Keys == s.hosts.Keys + (if effect'.state == Observed then {effect.hostRef} else {})
          && (forall h :: h in s.hosts ==> u.hosts[h] == s.hosts[h])
          && (effect'.state == Observed ==> Some(u.hosts[effect.hostRef].receipt) == effect'.receipt)
  }

  lemma ObserveDelta(s: Snapshot, r: Request, ctx: Context, t: Reduced)
    requires AfterObserve(s, r, ctx) == Ok(t)
    ensures ObservesPair(s, t.snapshot, r.subject)
    ensures Quiet(t.events)
    ensures t.snapshot.currentResult == s.currentResult
  {
    hide ReceiptFor;
  }

  // StageExternalResult, AcknowledgeResult, RecordReview -----------------------------------------------------

  predicate StagesResult(s: Snapshot, u: Snapshot, e: Str, ref: Str) {
    && e in s.effects && s.effects[e].state != Committed
    && Only(ActiveGoals(s.goals)).Some?
    && ref in u.results
    && var result := u.results[ref];
       && result.attemptRef == s.effects[e].attemptRef && result.effectRef == e && result.state == Staged
       && result.goalRef == Only(ActiveGoals(s.goals)).value && result.artifactRef == None
       && result.reportRef in u.reports && u.reports[result.reportRef].resultRef == ref
       && !u.reports[result.reportRef].accepted
       && u == s.(results := s.results[ref := result],
                  reports := s.reports[result.reportRef := u.reports[result.reportRef]],
                  currentResult := Some(ref))
  }

  lemma StageDelta(s: Snapshot, r: Request, outcome: Outcome, summary: string, t: Reduced)
    requires AfterStage(s, r, outcome, summary) == Ok(t)
    ensures NewResult in r.allocate && StagesResult(s, t.snapshot, r.subject, r.allocate[NewResult])
    ensures Quiet(t.events)
  {
    hide Blank, IsHex64, ActiveGoals;
  }

  predicate AcknowledgesResult(s: Snapshot, u: Snapshot, ref: Str) {
    && ref in s.results && s.results[ref].reportRef in s.reports
    && s.results[ref].state == Staged
    && ref in u.results && u.results[ref].artifactRef.Some?
    && var result := s.results[ref];
       var artifact := u.results[ref].artifactRef.value;
       && artifact in u.artifacts && u.artifacts[artifact].resultRef == ref
       && result.reportRef in u.reports && u.reports[result.reportRef].accepted
       && u == s.(artifacts := s.artifacts[artifact := u.artifacts[artifact]],
                  reports := s.reports[result.reportRef := u.reports[result.reportRef]],
                  results := s.results[ref := result.(artifactRef := Some(artifact), revision := result.revision + 1,
                                                      state := Acknowledged)])
  }

  lemma AcknowledgeDelta(s: Snapshot, r: Request, ctx: Context, t: Reduced)
    requires AfterAcknowledge(s, r, ctx) == Ok(t)
    ensures AcknowledgesResult(s, t.snapshot, r.subject)
    ensures Quiet(t.events)
    ensures t.snapshot.currentResult == s.currentResult
  {
    hide ReceiptFor;
  }

  predicate RecordsReview(s: Snapshot, u: Snapshot, resultRef: Str, verdict: Verdict, ref: Str) {
    && resultRef in s.results && s.results[resultRef].state == Acknowledged
    && ResultChain(s).Ok? && ref in u.reviews
    && var review := u.reviews[ref];
       && review.resultRef == resultRef && review.verdict == verdict
       && review.reportRef == s.results[resultRef].reportRef
       && Some(review.artifactRef) == s.results[resultRef].artifactRef
       && review.chainDigest == Digest(SubjectChainOf(ResultChain(s).value))
       && u == s.(reviews := s.reviews[ref := review])
  }

  lemma ReviewDelta(s: Snapshot, r: Request, verdict: Verdict, t: Reduced)
    requires AfterReview(s, r, verdict) == Ok(t)
    ensures NewReview in r.allocate && RecordsReview(s, t.snapshot, r.subject, verdict, r.allocate[NewReview])
    ensures Quiet(t.events)
    ensures t.snapshot.currentResult == s.currentResult
  {
    hide ResultChain;
  }

  // AdvanceGoal ---------------------------------------------------------------------------------------------

  /** The review an advance rests on, and the result it judges, both bound to the goal. */
  predicate JustifiesAdvance(s: Snapshot, goalRef: Str, reviewRef: Str, to: GoalState) {
    && goalRef in s.goals && s.goals[goalRef].state == Active
    && reviewRef in s.reviews && s.reviews[reviewRef].resultRef in s.results
    && var result := s.results[s.reviews[reviewRef].resultRef];
       && result.state == Acknowledged && result.goalRef == goalRef
       && result.effectRef in s.effects && s.effects[result.effectRef].goalRef == goalRef
       && MayAdvance(s.goals[goalRef], result.outcome, s.reviews[reviewRef], to)
  }

  function Moved(s: Snapshot, goalRef: Str, to: GoalState): Goal
    requires goalRef in s.goals
  {
    s.goals[goalRef].(revision := s.goals[goalRef].revision + 1, state := to)
  }

  predicate LeavesPlan(s: Snapshot, to: GoalState) {
    to !in {Done, Skipped} || s.plan.activeIndex + 1 == |s.plan.ids|
  }

  predicate NextInLine(next: Goal, chain: Chain, from: Str, p: Plan, i: int)
    requires 0 <= i < |p.ids| == |p.slices|
  {
    && next.chain == chain && next.dependsOn == Some(from) && next.goalId == p.ids[i] && next.slice == p.slices[i]
    && next.order == i && next.state == Active && 1 <= next.maxAttempts <= 3
  }

  predicate MaterializesGoal(s: Snapshot, u: Snapshot, from: Str, to: GoalState) {
    var p := s.plan;
    var i := p.activeIndex + 1;
    && from in s.goals && p.activeGoalRef == from
    && 0 < i < |p.ids| == |p.slices| == p.goalCount
    && var chain := GoalChain(s.loopRef, p.planDigest, p.ids[i], p.slices[i]);
       && chain.goalRef in u.goals && chain.goalRef !in s.goals
       && u.goals == s.goals[from := Moved(s, from, to)][chain.goalRef := u.goals[chain.goalRef]]
       && NextInLine(u.goals[chain.goalRef], chain, from, p, i)
       && Launches(s, u, chain)
       && u.plan == p.(activeGoalRef := chain.goalRef, activeIndex := i)
       && SameEvidence(s, u) && u.policy == s.policy
  }

  lemma NextGoalDelta(s: Snapshot, r: Request, from: Str, to: GoalState, u: Snapshot, ref: Str)
    requires from in s.goals && s.plan.activeGoalRef == from && s.plan.goalCount == |s.plan.ids|
    requires 0 <= s.plan.activeIndex && s.plan.activeIndex + 1 < |s.plan.ids| == |s.plan.slices|
    requires NextGoal(s.(goals := s.goals[from := Moved(s, from, to)]), r, from, to) == Ok((u, ref))
    ensures MaterializesGoal(s, u, from, to)
  {
    hide AllocatesChain, Is64, NextRequirementOf, NextMaxAttemptsOf;
  }

  lemma AdvanceGuards(s: Snapshot, r: Request, to: GoalState, t: Reduced)
    requires AfterAdvance(s, r, to) == Ok(t)
    ensures ReviewBinding in r.resolved && JustifiesAdvance(s, r.subject, r.resolved[ReviewBinding], to)
    ensures to == Skipped ==> s.goals[r.subject].requirement == Optional
  {
    hide NextGoal;
  }

  lemma AdvanceSettles(s: Snapshot, r: Request, to: GoalState, t: Reduced)
    requires AfterAdvance(s, r, to) == Ok(t)
    ensures r.subject in s.goals && s.goals[r.subject].state == Active && Settle(s, r, to) == Ok(t)
  {
    hide Settle, MayAdvance;
  }

  lemma AdvanceDelta(s: Snapshot, r: Request, to: GoalState, t: Reduced)
    requires AfterAdvance(s, r, to) == Ok(t)
    ensures r.subject in s.goals
    ensures LeavesPlan(s, to) ==> t.snapshot == s.(goals := s.goals[r.subject := Moved(s, r.subject, to)])
    ensures to in {Done, Skipped} ==> s.plan.activeGoalRef == r.subject
    ensures !LeavesPlan(s, to) ==> MaterializesGoal(s, t.snapshot, r.subject, to)
    ensures Quiet(t.events)
  {
    AdvanceSettles(s, r, to, t);
    hide AfterAdvance, Settle, MaterializesGoal, Quiet;
    SettleDelta(s, r, to, t);
  }

  lemma SettleDelta(s: Snapshot, r: Request, to: GoalState, t: Reduced)
    requires r.subject in s.goals && Settle(s, r, to) == Ok(t)
    ensures LeavesPlan(s, to) ==> t.snapshot == s.(goals := s.goals[r.subject := Moved(s, r.subject, to)])
    ensures to in {Done, Skipped} ==> s.plan.activeGoalRef == r.subject
    ensures !LeavesPlan(s, to) ==> MaterializesGoal(s, t.snapshot, r.subject, to)
    ensures Quiet(t.events)
  {
    hide NextGoal, MaterializesGoal;
    if !LeavesPlan(s, to) {
      var advanced := s.(goals := s.goals[r.subject := Moved(s, r.subject, to)]);
      var next := NextGoal(advanced, r, r.subject, to);
      assert next.Ok? && next.value.0 == t.snapshot;
      NextGoalDelta(s, r, r.subject, to, next.value.0, next.value.1);
    }
  }

  // RecordPolicyDecision ------------------------------------------------------------------------------------

  /** A repair gives the active goal a new chain and launches its effect. */
  predicate SchedulesRepair(s: Snapshot, u: Snapshot, goalRef: Str, ordinal: nat) {
    && goalRef in s.goals
    && var id := RepairIdentity(s.loopRef, s.plan.planDigest, goalRef, s.goals[goalRef].goalId, ordinal);
       && u.goals == s.goals[goalRef := s.goals[goalRef].(chain := RepairChain(id))]
       && Launches(s, u, RepairChain(id))
       && u.plan == s.plan && SameEvidence(s, u)
  }

  lemma ScheduleDelta(s: Snapshot, r: Request, goalRef: Str, ordinal: nat, u: Snapshot, chain: Chain)
    requires goalRef in s.goals && ScheduleRepair(s, r, goalRef, ordinal) == Ok((u, chain))
    ensures SchedulesRepair(s, u, goalRef, ordinal) && u.policy == s.policy
    ensures chain == RepairChain(RepairIdentity(s.loopRef, s.plan.planDigest, goalRef, s.goals[goalRef].goalId, ordinal))
  {
    hide Is64, RepairAllocation;
  }

  /** The policy's repair counter when it is read for a goal. */
  function CountedFor(policy: Option<Policy>, goalRef: Str): nat {
    if policy.Some? && policy.value.goalRef == Some(goalRef) then policy.value.repairAttempts else 0
  }

  /** A decision that leaves goals and effects alone. */
  predicate DecidesOnly(s: Snapshot, u: Snapshot) { u == s.(policy := u.policy) }

  /** An exhausted decision keeps the counter; an authorised one raises it, to three at most, and may schedule. */
  predicate CountsRepair(s: Snapshot, t: Reduced, goalRef: Str) {
    var before := CountedFor(s.policy, goalRef);
    && t.snapshot.policy.Some? && t.snapshot.policy.value.goalRef == Some(goalRef)
    && var after := t.snapshot.policy.value.repairAttempts;
       if after == before then
         DecidesOnly(s, t.snapshot) && t.events == [HumanDecisionRecorded(ContinueRepair), RepairExhausted]
       else
         && after == before + 1 <= 3
         && AuthorizesRepair(s, t, goalRef, after)
  }

  predicate AuthorizesRepair(s: Snapshot, t: Reduced, goalRef: Str, ordinal: nat) {
    || (DecidesOnly(s, t.snapshot) && t.events == [HumanDecisionRecorded(ContinueRepair), RepairAuthorized(ordinal)])
    || (&& SchedulesRepair(s, t.snapshot, goalRef, ordinal)
        && t.events == [HumanDecisionRecorded(ContinueRepair), RepairAuthorized(ordinal),
                        RepairAttemptScheduled(t.snapshot.goals[goalRef].chain.attemptRef, goalRef)])
  }

  lemma AuthorizedDelta(s: Snapshot, r: Request, goalRef: Str, policy: Policy, card: Str, failure: Str, t: Reduced)
    requires goalRef in s.goals && AfterAuthorizedRepair(s, r, goalRef, policy, card, failure) == Ok(t)
    ensures AuthorizesRepair(s, t, goalRef, policy.repairAttempts + 1)
    ensures t.snapshot.policy.Some? && t.snapshot.policy.value.goalRef == policy.goalRef
            && t.snapshot.policy.value.repairAttempts == policy.repairAttempts + 1
  {
    hide ScheduleRepair, SameFailures;
    if r.allocate != map[] {
      var ordinal := policy.repairAttempts + 1;
      var scheduled := ScheduleRepair(s, r, goalRef, ordinal);
      ScheduleDelta(s, r, goalRef, ordinal, scheduled.value.0, scheduled.value.1);
    }
  }

  lemma ContinueDelta(s: Snapshot, r: Request, prior: Policy, fingerprint: string, card: Str, t: Reduced)
    requires AfterContinueRepair(s, r, prior, fingerprint, card) == Ok(t)
    requires prior == if s.policy.Some? then s.policy.value else INITIAL_POLICY
    ensures Only(ActiveGoals(s.goals)).Some? && CountsRepair(s, t, Only(ActiveGoals(s.goals)).value)
  {
    hide AfterAuthorizedRepair, AuthorizesRepair, SameFailures, RepairWanted, RecordRepair;
    var goalRef := Only(ActiveGoals(s.goals)).value;
    assert goalRef in ActiveGoals(s.goals);
    var policy := CountersFor(prior, goalRef);
    var failure := Digest(Fingerprint(fingerprint));
    assert policy.goalRef == Some(goalRef) && policy.repairAttempts == CountedFor(s.policy, goalRef);
    if AfterAuthorizedRepair(s, r, goalRef, policy, card, failure) == Ok(t) && policy.repairAttempts < 3 {
      hide AfterContinueRepair;
      AuthorizedDelta(s, r, goalRef, policy, card, failure, t);
    } else {
      ExhaustedDelta(s, r, prior, fingerprint, card, t);
    }
  }

  lemma ExhaustedDelta(s: Snapshot, r: Request, prior: Policy, fingerprint: string, card: Str, t: Reduced)
    requires AfterContinueRepair(s, r, prior, fingerprint, card) == Ok(t)
    requires Only(ActiveGoals(s.goals)).Some?
    requires var goalRef := Only(ActiveGoals(s.goals)).value; var policy := CountersFor(prior, goalRef);
             goalRef in s.goals
             && !(AfterAuthorizedRepair(s, r, goalRef, policy, card, Digest(Fingerprint(fingerprint))) == Ok(t)
                  && policy.repairAttempts < 3)
    ensures var policy := CountersFor(prior, Only(ActiveGoals(s.goals)).value);
            && DecidesOnly(s, t.snapshot) && t.events == [HumanDecisionRecorded(ContinueRepair), RepairExhausted]
            && t.snapshot.policy.Some? && t.snapshot.policy.value.goalRef == policy.goalRef
            && t.snapshot.policy.value.repairAttempts == policy.repairAttempts
  {
    hide AfterAuthorizedRepair, SameFailures, RepairWanted, CountersFor;
  }

  /** A WAIT or STOP decision: recorded, with the repair counters untouched. */
  predicate Defers(s: Snapshot, t: Reduced, d: Decision) {
    var prior := if s.policy.Some? then s.policy.value else INITIAL_POLICY;
    && DecidesOnly(s, t.snapshot) && t.events == [HumanDecisionRecorded(d)]
    && t.snapshot.policy.Some?
    && t.snapshot.policy.value.goalRef == prior.goalRef
    && t.snapshot.policy.value.repairAttempts == prior.repairAttempts
  }

  lemma DecisionDelta(s: Snapshot, r: Request, ctx: Context, d: Decision, fingerprint: string, t: Reduced)
    requires AfterDecision(s, r, ctx, d, fingerprint) == Ok(t)
    ensures d == ContinueRepair ==>
              Only(ActiveGoals(s.goals)).Some? && CountsRepair(s, t, Only(ActiveGoals(s.goals)).value)
    ensures d != ContinueRepair ==> Defers(s, t, d)
  {
    hide AfterContinueRepair, PolicyContextOf, CountsRepair;
    if d == ContinueRepair {
      var prior := if s.policy.Some? then s.policy.value else INITIAL_POLICY;
      ContinueDelta(s, r, prior, fingerprint, r.resolved[DecisionCard], t);
    }
  }

  // PauseLoop, ResumeLoop, ReviseGoalPlan, StopLoop ----------------------------------------------------------

  lemma PauseDelta(s: Snapshot, reason: string, wait: Option<WaitKind>, t: Reduced)
    requires AfterPause(s, reason, wait) == Ok(t)
    ensures t.snapshot == s.(execution := t.snapshot.execution) && Quiet(t.events)
    ensures s.execution.state == Running && t.snapshot.execution.state == Paused
    ensures t.snapshot.currentResult == s.currentResult
  {
  }

  /** A resume that extends the runtime budget: strictly, within the limits, and counted. */
  predicate ExtendsBudget(s: Snapshot, t: Reduced) {
    var p, q := s.plan, t.snapshot.plan;
    && t.snapshot == s.(execution := t.snapshot.execution, plan := q)
    && s.execution.state == Paused && t.snapshot.execution.state == Running
    && q == p.(budget := q.budget, extension := q.extension)
    && q.budget.cost == p.budget.cost
    && p.budget.invocations <= q.budget.invocations <= MAX_INVOCATIONS
    && p.budget.seconds <= q.budget.seconds <= MAX_SECONDS
    && q.budget != p.budget
    && q.extension.Some? && q.extension.value.revision == ExtensionsOf(p) + 1
    && Count(t.events, Extending) == 1 && Count(t.events, Scheduling) == Count(t.events, Authorizing) == 0
  }

  function ExtensionsOf(p: Plan): nat { if p.extension.Some? then p.extension.value.revision else 0 }

  lemma ResumeDelta(s: Snapshot, fields: ResumeFields, t: Reduced)
    requires AfterResume(s, fields) == Ok(t)
    ensures || ExtendsBudget(s, t)
            || (t.snapshot == s.(execution := t.snapshot.execution) && Quiet(t.events)
                && s.execution.state == Paused && t.snapshot.execution.state == Running)
  {
    hide IsHex64, Count;
    if s.execution.wait == Some(WaitBudget) {
      var extension := t.snapshot.plan.extension.value.digest;
      assert t.events == [BudgetExtended(extension), LoopResumed];
      CountOne(t.events, Extending, 0);
      CountNone(t.events, Scheduling);
      CountNone(t.events, Authorizing);
    }
  }

  lemma ReviseDelta(s: Snapshot, ids: seq<Str>, slices: seq<Str>, index: Str, revision: int, reason: string, t: Reduced)
    requires AfterRevise(s, ids, slices, index, revision, reason) == Ok(t)
    ensures t.snapshot.plan == s.plan.(ids := ids, slices := slices, indexDigest := index, revision := s.plan.revision + 1)
    ensures t.snapshot == s.(goals := t.snapshot.goals, plan := t.snapshot.plan) && Quiet(t.events)
    ensures ValidRevision(s.plan, ids, slices, index, revision, reason)
    ensures t.snapshot.currentResult == s.currentResult
  {
    hide ValidRevision;
    assert ValidRevision(s.plan, ids, slices, index, revision, reason) ==> revision == s.plan.revision + 1 by {
      RevisionIsNext(s.plan, ids, slices, index, revision, reason);
    }
  }

  lemma RevisionIsNext(p: Plan, ids: seq<Str>, slices: seq<Str>, index: Str, revision: int, reason: string)
    ensures ValidRevision(p, ids, slices, index, revision, reason) ==> revision == p.revision + 1
  {
  }

  predicate StopsLoop(s: Snapshot, u: Snapshot) {
    && s.execution.state in {Running, Paused}
    && Only(ActiveGoals(s.goals)).Some?
    && var g := Only(ActiveGoals(s.goals)).value;
       && g in s.goals && s.goals[g].state == Active
       && u == s.(goals := s.goals[g := Moved(s, g, Halted)], execution := u.execution, closure := u.closure)
       && u.execution.state == Terminal && u.execution.disposition == Some(Stopped) && u.closure.strength == Local
  }

  lemma StopDelta(s: Snapshot, reason: string, t: Reduced)
    requires AfterStop(s, reason) == Ok(t)
    ensures StopsLoop(s, t.snapshot) && Quiet(t.events)
    ensures t.snapshot.currentResult == s.currentResult
  {
    assert Only(ActiveGoals(s.goals)).value in ActiveGoals(s.goals);
  }

  // Finalization --------------------------------------------------------------------------------------------

  predicate PreparesFinalization(s: Snapshot, u: Snapshot, d: Disposition, ref: Str) {
    && (forall g :: g in s.goals ==> Finished(s.goals[g]))
    && ref in u.finalizations
    && var f := u.finalizations[ref];
       && (s.currentResult.Some? ==> f.resultRef == s.currentResult.value)
       && f.resultRef in s.results && f.goalRef in s.goals && f.reviewRef in s.reviews
       && (s.results[f.resultRef].goalRef in s.goals ==> f.goalRef == s.results[f.resultRef].goalRef)
       && s.reviews[f.reviewRef].resultRef == f.resultRef
       && f.effectRef == s.results[f.resultRef].effectRef && f.effectRef in s.effects
       && CheckDisposition(s, s.goals[f.goalRef], s.results[f.resultRef], s.reviews[f.reviewRef], s.effects[f.effectRef], d).Pass?
       && s.goals[f.goalRef].state in {Done, Skipped, Failed, Limited}
       && f.disposition == d && f.strength == NoStrength && !f.closed
       && u == s.(finalizations := s.finalizations[ref := f],
                  execution := s.execution.(revision := s.execution.revision + 1, state := Finalizing))
  }

  lemma FinalChainFacts(s: Snapshot)
    requires FinalChain(s).Ok?
    ensures var chain := FinalChain(s).value;
            && (s.currentResult.Some? ==> chain.result.ref == s.currentResult.value)
            && chain.result.ref in s.results && chain.goal.ref in s.goals && chain.review.Some?
            && (s.results[chain.result.ref].goalRef in s.goals ==> chain.goal.ref == s.results[chain.result.ref].goalRef)
            && chain.review.value.ref in s.reviews
            && s.reviews[chain.review.value.ref].resultRef == chain.result.ref
            && chain.effect.ref == s.results[chain.result.ref].effectRef
            && chain.effect.ref in s.effects && s.effects[chain.effect.ref].hostRef in s.hosts
            && Some(chain.artifact.ref) == s.results[chain.result.ref].artifactRef
  {
    var chain := FinalChain(s).value;
    assert chain.review.value.ref in ReviewsOf(s, chain.result.ref);
  }

  lemma PrepareDelta(s: Snapshot, r: Request, d: Disposition, t: Reduced)
    requires AfterPrepare(s, r, d) == Ok(t)
    ensures NewFinalization in r.allocate && PreparesFinalization(s, t.snapshot, d, r.allocate[NewFinalization])
    ensures Quiet(t.events)
    ensures t.snapshot.currentResult == s.currentResult
  {
    hide FinalChain, CheckDisposition;
    FinalChainFacts(s);
  }

  predicate ClosesExecution(s: Snapshot, u: Snapshot, ref: Str) {
    && ref in s.finalizations && !s.finalizations[ref].closed
    && u.closure.strength in {Strict, Cooperative} && u.closure.finalizationRef == Some(ref)
    && var f := s.finalizations[ref];
       && (f.disposition in {Succeeded, SucceededWithLimitations} ==> u.closure.strength == Strict)
       && u == s.(closure := u.closure,
                  finalizations := s.finalizations[ref := f.(strength := u.closure.strength, closed := true,
                                                             revision := f.revision + 1)],
                  execution := s.execution.(disposition := Some(f.disposition), revision := s.execution.revision + 1,
                                            state := Terminal))
  }

  lemma CloseDelta(s: Snapshot, r: Request, ctx: Context, t: Reduced)
    requires AfterClose(s, r, ctx) == Ok(t)
    ensures ClosesExecution(s, t.snapshot, r.subject)
    ensures Quiet(t.events)
    ensures t.snapshot.currentResult == s.currentResult
  {
    hide FinalChain, ReceiptFor;
  }

  predicate StrengthensClosure(s: Snapshot, u: Snapshot, ref: Str) {
    && ref in s.finalizations && s.execution.state == Terminal && s.finalizations[ref].closed
    && s.finalizations[ref].strength == Cooperative && s.closure.strength == Cooperative
    && s.closure.finalizationRef == Some(ref)
    && u.closure.strength == Strict && u.closure.finalizationRef == Some(ref)
    && var f := s.finalizations[ref];
       u == s.(closure := u.closure,
               finalizations := s.finalizations[ref := f.(strength := Strict, revision := f.revision + 1)])
  }

  lemma StrengthenDelta(s: Snapshot, r: Request, ctx: Context, t: Reduced)
    requires AfterStrengthen(s, r, ctx) == Ok(t)
    ensures StrengthensClosure(s, t.snapshot, r.subject)
    ensures Quiet(t.events)
    ensures t.snapshot.currentResult == s.currentResult
  {
    hide ReceiptFor;
  }
}
