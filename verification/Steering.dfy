/** What it takes to decide on a failure, pause, resume, stop and reorder a loop, and what these commands put on record. */
module Steering {
  import opened Base
  import opened Records
  import opened Commands
  import opened Authority
  import opened Kernel
  import opened Permissions
  import opened Transitions
  import opened PlanProgress
  import opened StorageMode
  import opened Safety
  import opened Evidence

  // What a decision is about -----------------------------------------------------------------------------------

  predicate ArtifactShown(s: Snapshot, ref: Option<Str>, shown: Option<ContextEntry>) {
    shown == if ref.Some? && ref.value in s.artifacts then
               Some(ContextEntry(ref.value, s.artifacts[ref.value].revision, ArtifactStatus(s.artifacts[ref.value].verified)))
             else None
  }

  predicate ReviewShown(s: Snapshot, ref: Option<Str>, shown: Option<ContextEntry>) {
    shown == if ref.Some? && ref.value in s.reviews then
               Some(ContextEntry(ref.value, s.reviews[ref.value].revision, ReviewStatus(s.reviews[ref.value].verdict)))
             else None
  }

  predicate GoalShown(s: Snapshot, ref: Option<Str>, shown: Option<ContextEntry>) {
    shown == if ref.Some? && ref.value in s.goals then
               Some(ContextEntry(ref.value, s.goals[ref.value].revision, GoalStatus(s.goals[ref.value].state)))
             else None
  }

  /** What a human is shown: the loop and its execution, and of the one active goal the goal, the artifact and the review
      of its current chain; without one, the last of each in string order. */
  predicate Shown(s: Snapshot, latest: set<Str> -> Option<Str>, c: PolicyContext) {
    && c.loop == s.loopRef && c.loopRevision == s.loopRevision
    && c.executionRevision == s.execution.revision && c.execution == ExecutionStatus(s.execution.state)
    && (forall g :: g in s.goals && OneActive(s.goals, g) ==>
          && GoalShown(s, Some(g), c.goal) && ArtifactShown(s, Some(s.goals[g].chain.artifactRef), c.artifact)
          && ReviewShown(s, Some(s.goals[g].chain.reviewRef), c.review))
    && ((forall g :: g in s.goals ==> !OneActive(s.goals, g)) ==>
          && GoalShown(s, latest(s.goals.Keys), c.goal) && ArtifactShown(s, latest(s.artifacts.Keys), c.artifact)
          && ReviewShown(s, latest(s.reviews.Keys), c.review))
  }

  lemma ContextExactly(s: Snapshot, latest: set<Str> -> Option<Str>, c: PolicyContext)
    ensures PolicyContextOf(s, latest) == c <==> Shown(s, latest, c)
  {
    OnlyActive(s.goals);
    hide OneActive, Only;
    if Only(ActiveGoals(s.goals)).Some? {
      var g := Only(ActiveGoals(s.goals)).value;
      assert g in ActiveGoals(s.goals);
    }
  }

  /** The decision was taken on what the loop looks like now, and names its decision card. */
  predicate Informed(s: Snapshot, r: Request, latest: set<Str> -> Option<Str>, fingerprint: string, c: PolicyContext) {
    && |fingerprint| <= 512 && Shown(s, latest, c)
    && ContextDigest in r.resolved && r.resolved[ContextDigest] == Digest(HumanContext(c))
    && DecisionCard in r.resolved && r.resolved[DecisionCard] != Text("")
  }

  // Deciding ---------------------------------------------------------------------------------------------------

  /** How often the same failure has now occurred in a row on this goal. */
  function Streak(policy: Option<Policy>, goalRef: Str, failure: Str): nat {
    if policy.Some? && policy.value.goalRef == Some(goalRef) && policy.value.lastFailure == Some(failure)
    then policy.value.sameFailures + 1 else 1
  }

  /** The review of the goal's current chain asks for a repair, the failure is named, and the command states budgets of
      one to three repairs and one or two equal failures. */
  predicate WantsRepair(s: Snapshot, r: Request, goalRef: Str, fingerprint: string) {
    && goalRef in s.goals && s.goals[goalRef].chain.reviewRef in s.reviews
    && s.reviews[s.goals[goalRef].chain.reviewRef].verdict == RepairVerdict && fingerprint != ""
    && RepairBudget in r.resolved && r.resolved[RepairBudget].Num? && 1 <= r.resolved[RepairBudget].number <= 3
    && SameFailureBudget in r.resolved && r.resolved[SameFailureBudget].Num?
    && 1 <= r.resolved[SameFailureBudget].number <= 2
  }

  /** Either budget is used up. */
  predicate Spent(s: Snapshot, r: Request, goalRef: Str, failure: Str)
    requires RepairBudget in r.resolved && r.resolved[RepairBudget].Num?
    requires SameFailureBudget in r.resolved && r.resolved[SameFailureBudget].Num?
  {
    || CountedFor(s.policy, goalRef) >= r.resolved[RepairBudget].number
    || Streak(s.policy, goalRef, failure) >= r.resolved[SameFailureBudget].number
  }

  /** The command allocates exactly the repair chain. */
  predicate AllocatesRepair(a: map<Slot, Str>, chain: Chain) {
    && a.Keys == {NewArtifact, NewAttempt, NewEffect, NewHost, NewReport, NewResult, NewReview, ProviderIdempotencyKey}
    && a[NewArtifact] == chain.artifactRef && a[NewAttempt] == chain.attemptRef && a[NewEffect] == chain.effectRef
    && a[NewHost] == chain.hostRef && a[NewReport] == chain.reportRef && a[NewResult] == chain.resultRef
    && a[NewReview] == chain.reviewRef && a[ProviderIdempotencyKey] == chain.providerKey
  }

  /** It aims at the chain's host, and carries a full artifact baseline of a known profile in the plan's workspace; nothing
      of the chain exists yet. */
  predicate EquipsRepair(s: Snapshot, f: map<Field, Str>, chain: Chain) {
    && {BaselineBlob, ArtifactProfile, WorkspaceIdentity, RequestDigest, TargetRef} <= f.Keys
    && f[TargetRef] == chain.hostRef && f[WorkspaceIdentity] == s.plan.workspace
    && f[ArtifactProfile] in {Text("existing_git"), Text("non_git"), Text("new_git")}
    && Is64(f[BaselineBlob]) && Is64(f[RequestDigest]) && Is64(f[WorkspaceIdentity])
    && chain.attemptRef !in s.attempts && chain.effectRef !in s.effects
  }

  /** The chain of the repair a decision would schedule: that of the goal at the counter plus one. */
  function NextRepair(s: Snapshot, goalRef: Str): Chain
    requires goalRef in s.goals
  {
    RepairChain(RepairIdentity(s.loopRef, s.plan.planDigest, goalRef, s.goals[goalRef].goalId,
                               CountedFor(s.policy, goalRef) + 1))
  }

  lemma AllocationExactly(a: map<Slot, Str>, chain: Chain)
    ensures a == RepairAllocation(chain) <==> AllocatesRepair(a, chain)
  {
    assert RepairAllocation(chain).Keys
           == {NewArtifact, NewAttempt, NewEffect, NewHost, NewReport, NewResult, NewReview, ProviderIdempotencyKey};
  }

  lemma RepairEquipped(s: Snapshot, r: Request, goalRef: Str, ordinal: nat)
    requires goalRef in s.goals
    ensures var chain := RepairChain(RepairIdentity(s.loopRef, s.plan.planDigest, goalRef, s.goals[goalRef].goalId, ordinal));
            ScheduleRepair(s, r, goalRef, ordinal).Ok?
            <==> AllocatesRepair(r.allocate, chain) && EquipsRepair(s, r.resolved, chain)
  {
    hide RepairAllocation, AllocatesRepair, RepairChain, Is64, NewEffectRecord, NewAttemptRecord;
    AllocationExactly(
      r.allocate, RepairChain(RepairIdentity(s.loopRef, s.plan.planDigest, goalRef, s.goals[goalRef].goalId, ordinal)));
  }

  /** The goal takes over the repair chain, which is launched as the next attempt of the loop, for the same goal and
      slice; nothing else changes. */
  predicate RepairLaunched(s: Snapshot, r: Request, goalRef: Str, chain: Chain, u: Snapshot)
    requires goalRef in s.goals && {BaselineBlob, ArtifactProfile, WorkspaceIdentity} <= r.resolved.Keys
  {
    var goal, f, p := s.goals[goalRef], r.resolved, s.plan;
    && Launched(u, r, chain, Text("create_task"),
                Some(Baseline(f[BaselineBlob], f[ArtifactProfile], f[WorkspaceIdentity])), |s.attempts| + 1,
                ProviderRequest(p.activeIndex, f[BaselineBlob], goal.goalId, goal.slice, p.planDigest, p.indexDigest, Repaired,
                                chain.providerTarget, p.workspace))
    && u == s.(goals := s.goals[goalRef := goal.(chain := chain)],
               effects := s.effects[chain.effectRef := u.effects[chain.effectRef]],
               attempts := s.attempts[chain.attemptRef := u.attempts[chain.attemptRef]])
  }

  lemma RepairIsLaunched(s: Snapshot, r: Request, goalRef: Str, ordinal: nat, u: Snapshot, c: Chain)
    requires goalRef in s.goals && ScheduleRepair(s, r, goalRef, ordinal) == Ok((u, c))
    requires {BaselineBlob, ArtifactProfile, WorkspaceIdentity} <= r.resolved.Keys
    ensures c == RepairChain(RepairIdentity(s.loopRef, s.plan.planDigest, goalRef, s.goals[goalRef].goalId, ordinal))
    ensures RepairLaunched(s, r, goalRef, c, u)
  {
    hide RepairChain, RepairAllocation, Is64;
  }

  /** A decision to continue, on informed grounds, is recorded as exhausted if a budget is spent; otherwise it counts one
      more repair and schedules it if it allocates anything. */
  predicate MayContinue(s: Snapshot, r: Request, goalRef: Str, fingerprint: string) {
    && OneActive(s.goals, goalRef) && WantsRepair(s, r, goalRef, fingerprint)
    && (Spent(s, r, goalRef, Digest(Fingerprint(fingerprint))) || r.allocate == map[]
        || (AllocatesRepair(r.allocate, NextRepair(s, goalRef)) && EquipsRepair(s, r.resolved, NextRepair(s, goalRef))))
  }

  predicate ContinuedAfter(s: Snapshot, r: Request, goalRef: Str, fingerprint: string, t: Reduced)
    requires MayContinue(s, r, goalRef, fingerprint) && DecisionCard in r.resolved
  {
    var failure := Digest(Fingerprint(fingerprint));
    var counted := CountedFor(s.policy, goalRef);
    var spent := Spent(s, r, goalRef, failure);
    var outcome := if spent then Exhausted else if r.allocate == map[] then Authorized else RepairScheduled;
    var first := [HumanDecisionRecorded(ContinueRepair), if spent then RepairExhausted else RepairAuthorized(counted + 1)];
    var chain := NextRepair(s, goalRef);
    && t.snapshot.policy == Some(Policy(
         if s.policy.Some? then s.policy.value.revision + 1 else 1, if spent then counted else counted + 1,
         Streak(s.policy, goalRef, failure), outcome, Some(goalRef), Some(failure), Some(ContinueRepair),
         Some(r.resolved[DecisionCard])))
    && t.response == DecidedAs(ContinueRepair, Some(outcome))
    && if outcome == RepairScheduled then
         && RepairLaunched(s, r, goalRef, chain, t.snapshot.(policy := s.policy))
         && t.events == first + [RepairAttemptScheduled(chain.attemptRef, goalRef)]
       else t.snapshot == s.(policy := t.snapshot.policy) && t.events == first
  }

  lemma BudgetsExactly(f: map<Field, Str>)
    ensures RepairBudgets(f).Ok?
            <==> && RepairBudget in f && f[RepairBudget].Num? && 1 <= f[RepairBudget].number <= 3
                 && SameFailureBudget in f && f[SameFailureBudget].Num? && 1 <= f[SameFailureBudget].number <= 2
    ensures RepairBudgets(f).Ok? ==> RepairBudgets(f).value == (f[RepairBudget].number, f[SameFailureBudget].number)
  {
  }

  lemma CountersExactly(s: Snapshot, prior: Policy, goalRef: Str, failure: Str)
    requires prior == if s.policy.Some? then s.policy.value else INITIAL_POLICY
    ensures var policy := CountersFor(prior, goalRef);
            && policy.repairAttempts == CountedFor(s.policy, goalRef) && policy.goalRef == Some(goalRef)
            && SameFailures(policy, failure) == Streak(s.policy, goalRef, failure)
            && policy.revision == prior.revision
  {
  }

  lemma AuthorizedExactly(s: Snapshot, r: Request, goalRef: Str, policy: Policy, card: Str, failure: Str)
    requires goalRef in s.goals && policy.repairAttempts == CountedFor(s.policy, goalRef)
    ensures AfterAuthorizedRepair(s, r, goalRef, policy, card, failure).Ok?
            <==> || r.allocate == map[]
                 || (AllocatesRepair(r.allocate, NextRepair(s, goalRef)) && EquipsRepair(s, r.resolved, NextRepair(s, goalRef)))
  {
    hide ScheduleRepair, AllocatesRepair, EquipsRepair, RepairChain, RecordRepair;
    RepairEquipped(s, r, goalRef, policy.repairAttempts + 1);
  }

  lemma ContinueIsAllowed(s: Snapshot, r: Request, prior: Policy, fingerprint: string, card: Str)
    requires prior == if s.policy.Some? then s.policy.value else INITIAL_POLICY
    ensures AfterContinueRepair(s, r, prior, fingerprint, card).Ok?
            <==> exists g :: g in s.goals && MayContinue(s, r, g, fingerprint)
  {
    hide AllocatesRepair, EquipsRepair, RepairChain, RecordRepair, RepairBudgets, AfterAuthorizedRepair, CountersFor,
         SameFailures, Streak, CountedFor, Only, ActiveGoals, OneActive;
    OnlyActive(s.goals);
    BudgetsExactly(r.resolved);
    var active := Only(ActiveGoals(s.goals));
    if active.Some? {
      var failure := Digest(Fingerprint(fingerprint));
      ActiveIsIn(s.goals, active.value);
      CountersExactly(s, prior, active.value, failure);
      AuthorizedExactly(s, r, active.value, CountersFor(prior, active.value), card, failure);
      assert forall g :: g in s.goals && MayContinue(s, r, g, fingerprint) ==> g == active.value;
    }
  }

  lemma ActiveIsIn(goals: map<Str, Goal>, g: Str)
    requires OneActive(goals, g)
    ensures g in goals && g in ActiveGoals(goals)
  {
  }

  lemma ExhaustionIsRecorded(s: Snapshot, r: Request, prior: Policy, g: Str, fingerprint: string)
    requires prior == if s.policy.Some? then s.policy.value else INITIAL_POLICY
    requires DecisionCard in r.resolved && MayContinue(s, r, g, fingerprint)
    requires Spent(s, r, g, Digest(Fingerprint(fingerprint)))
    requires AfterContinueRepair(s, r, prior, fingerprint, r.resolved[DecisionCard]).Ok?
    ensures ContinuedAfter(s, r, g, fingerprint, AfterContinueRepair(s, r, prior, fingerprint, r.resolved[DecisionCard]).value)
  {
    hide AllocatesRepair, EquipsRepair, RepairChain, RepairBudgets, AfterAuthorizedRepair, CountersFor, RepairLaunched,
         SameFailures, Streak, CountedFor, Only, ActiveGoals, OneActive, RepairWanted;
    OnlyActive(s.goals);
    BudgetsExactly(r.resolved);
    CountersExactly(s, prior, g, Digest(Fingerprint(fingerprint)));
  }

  lemma ContinuingIsAuthorized(s: Snapshot, r: Request, prior: Policy, g: Str, fingerprint: string)
    requires prior == if s.policy.Some? then s.policy.value else INITIAL_POLICY
    requires DecisionCard in r.resolved && MayContinue(s, r, g, fingerprint)
    requires !Spent(s, r, g, Digest(Fingerprint(fingerprint)))
    requires AfterContinueRepair(s, r, prior, fingerprint, r.resolved[DecisionCard]).Ok?
    ensures g in s.goals
    ensures AfterContinueRepair(s, r, prior, fingerprint, r.resolved[DecisionCard])
            == AfterAuthorizedRepair(s, r, g, CountersFor(prior, g), r.resolved[DecisionCard], Digest(Fingerprint(fingerprint)))
  {
    hide AllocatesRepair, EquipsRepair, RepairChain, RepairBudgets, AfterAuthorizedRepair, CountersFor, RepairLaunched,
         SameFailures, Streak, CountedFor, Only, ActiveGoals, RepairWanted;
    OnlyActive(s.goals);
    BudgetsExactly(r.resolved);
    CountersExactly(s, prior, g, Digest(Fingerprint(fingerprint)));
  }

  lemma AuthorizationIsRecorded(s: Snapshot, r: Request, prior: Policy, g: Str, fingerprint: string)
    requires prior == if s.policy.Some? then s.policy.value else INITIAL_POLICY
    requires DecisionCard in r.resolved && MayContinue(s, r, g, fingerprint)
    requires !Spent(s, r, g, Digest(Fingerprint(fingerprint)))
    requires AfterAuthorizedRepair(s, r, g, CountersFor(prior, g), r.resolved[DecisionCard],
                                   Digest(Fingerprint(fingerprint))).Ok?
    ensures ContinuedAfter(
              s, r, g, fingerprint,
              AfterAuthorizedRepair(s, r, g, CountersFor(prior, g), r.resolved[DecisionCard],
                                    Digest(Fingerprint(fingerprint))).value)
  {
    hide AllocatesRepair, RepairChain, RepairBudgets, CountersFor, RepairLaunched, ScheduleRepair, Spent, WantsRepair,
         SameFailures, Streak, CountedFor, Only, ActiveGoals, RepairWanted;
    CountersExactly(s, prior, g, Digest(Fingerprint(fingerprint)));
    if r.allocate != map[] {
      var ordinal := CountedFor(s.policy, g) + 1;
      var (u, c) := ScheduleRepair(s, r, g, ordinal).value;
      RepairIsLaunched(s, r, g, ordinal, u, c);
      SchedulingKeepsPolicy(s, r, g, ordinal, u, c);
    }
  }

  lemma SchedulingKeepsPolicy(s: Snapshot, r: Request, goalRef: Str, ordinal: nat, u: Snapshot, c: Chain)
    requires goalRef in s.goals && ScheduleRepair(s, r, goalRef, ordinal) == Ok((u, c))
    ensures u.policy == s.policy
  {
    hide RepairChain, RepairAllocation, Is64, MaterializesRepair;
  }

  /** A WAIT or STOP decision is recorded and changes nothing else. */
  predicate DeferredAfter(s: Snapshot, r: Request, d: Decision, t: Reduced)
    requires DecisionCard in r.resolved
  {
    && t.snapshot.policy.Some?
    && t.snapshot.policy.value
       == (if s.policy.Some? then s.policy.value else Policy(0, 0, 0, Idle, None, None, None, None)).(
          revision := if s.policy.Some? then s.policy.value.revision + 1 else 1, state := ExecutionPending,
          lastDecision := Some(d), card := Some(r.resolved[DecisionCard]))
    && t.snapshot == s.(policy := t.snapshot.policy)
    && t.events == [HumanDecisionRecorded(d)] && t.response == DecidedAs(d, None)
  }

  /** A decision is accepted exactly on informed grounds and, to continue, when a repair is wanted and what the command
      allocates is the next repair. */
  lemma DecisionExactly(s: Snapshot, r: Request, ctx: Context, d: Decision, fingerprint: string)
    ensures AfterDecision(s, r, ctx, d, fingerprint).Ok?
            <==> && (exists c :: Informed(s, r, ctx.latest, fingerprint, c))
                 && (d == ContinueRepair ==> exists g :: g in s.goals && MayContinue(s, r, g, fingerprint))
  {
    hide AfterContinueRepair, PolicyContextOf, MayContinue, Shown;
    var c := PolicyContextOf(s, ctx.latest);
    ContextExactly(s, ctx.latest, c);
    forall e | Shown(s, ctx.latest, e) ensures e == c { ContextExactly(s, ctx.latest, e); }
    assert (exists e :: Informed(s, r, ctx.latest, fingerprint, e)) <==> Informed(s, r, ctx.latest, fingerprint, c);
    var prior := if s.policy.Some? then s.policy.value else INITIAL_POLICY;
    if DecisionCard in r.resolved { ContinueIsAllowed(s, r, prior, fingerprint, r.resolved[DecisionCard]); }
  }

  /** An accepted decision is recorded as described. */
  lemma DecisionIsRecorded(s: Snapshot, r: Request, ctx: Context, d: Decision, fingerprint: string, g: Str)
    requires AfterDecision(s, r, ctx, d, fingerprint).Ok?
    requires d == ContinueRepair ==> g in s.goals && MayContinue(s, r, g, fingerprint)
    ensures DecisionCard in r.resolved
    ensures d != ContinueRepair ==> DeferredAfter(s, r, d, AfterDecision(s, r, ctx, d, fingerprint).value)
    ensures d == ContinueRepair ==> ContinuedAfter(s, r, g, fingerprint, AfterDecision(s, r, ctx, d, fingerprint).value)
  {
    hide AfterContinueRepair, PolicyContextOf, MayContinue, ContinuedAfter;
    if d == ContinueRepair {
      ContinuingIsRecorded(s, r, if s.policy.Some? then s.policy.value else INITIAL_POLICY, g, fingerprint);
    }
  }

  lemma ContinuingIsRecorded(s: Snapshot, r: Request, prior: Policy, g: Str, fingerprint: string)
    requires prior == if s.policy.Some? then s.policy.value else INITIAL_POLICY
    requires DecisionCard in r.resolved && MayContinue(s, r, g, fingerprint)
    requires AfterContinueRepair(s, r, prior, fingerprint, r.resolved[DecisionCard]).Ok?
    ensures ContinuedAfter(s, r, g, fingerprint, AfterContinueRepair(s, r, prior, fingerprint, r.resolved[DecisionCard]).value)
  {
    hide AfterContinueRepair, AfterAuthorizedRepair, ContinuedAfter, AllocatesRepair, EquipsRepair, Streak, CountedFor,
         RepairChain, OneActive, CountersFor;
    if Spent(s, r, g, Digest(Fingerprint(fingerprint))) {
      ExhaustionIsRecorded(s, r, prior, g, fingerprint);
    } else {
      ContinuingIsAuthorized(s, r, prior, g, fingerprint);
      AuthorizationIsRecorded(s, r, prior, g, fingerprint);
    }
  }

  // Pausing, resuming, stopping --------------------------------------------------------------------------------

  /** A reason that is not blank, of at most 512 characters. */
  predicate Reasoned(reason: string) { |reason| <= 512 && exists i :: 0 <= i < |reason| && !IsSpace(reason[i]) }

  /** A running loop pauses for a reason; a wait that is not given leaves the old one. */
  lemma PauseExactly(s: Snapshot, reason: string, wait: Option<WaitKind>)
    ensures AfterPause(s, reason, wait).Ok? <==> s.execution.state == Running && Reasoned(reason)
    ensures AfterPause(s, reason, wait).Ok? ==>
              var t := AfterPause(s, reason, wait).value;
              var digest := Digest(ReasonText("loopskill-pause-reason-v1\n", reason));
              && t.snapshot == s.(execution := Execution(
                   Paused, s.execution.disposition, s.execution.revision + 1, Some(digest),
                   if wait.Some? then wait else s.execution.wait, s.execution.stopReason))
              && t.events == (if wait == Some(WaitBudget) then [BudgetWaiting, LoopPaused(digest)] else [LoopPaused(digest)])
  {
    hide IsSpace;
  }

  /** The extension raises a budget, lowers none, stays within 384 invocations and thirty days, and names the budget it
      extends and a reason. */
  predicate Extends(b: Budget, f: ResumeFields) {
    && f.BudgetFields? && b.invocations <= f.invocations <= 384 && b.seconds <= f.seconds <= 2_592_000
    && (f.invocations > b.invocations || f.seconds > b.seconds)
    && IsHex64(f.reason) && f.prior == Digest(RuntimeBudget(b.invocations, b.seconds))
  }

  /** What ends each kind of wait: an extension of the budget, evidence of a gate, nothing otherwise. */
  predicate EndsWait(s: Snapshot, f: ResumeFields) {
    match s.execution.wait
    case Some(WaitBudget) => Extends(s.plan.budget, f)
    case Some(WaitHuman) => f.GateEvidence? && IsHex64(f.gate)
    case Some(WaitTime) => f.GateEvidence? && IsHex64(f.gate)
    case _ => f == NoFields
  }

  /** The loop runs and waits for nothing; an extension is in force and counted, and costs stay as they were. */
  predicate ResumedAfter(s: Snapshot, f: ResumeFields, t: Reduced) {
    var resumed := Execution(Running, s.execution.disposition, s.execution.revision + 1, None, None, s.execution.stopReason);
    if s.execution.wait == Some(WaitBudget) then
      && f.BudgetFields?
      && var digest := Digest(BudgetExtension(s.loopRef, f.invocations, f.seconds, f.prior, f.reason));
         && t.snapshot == s.(execution := resumed, plan := s.plan.(
              budget := Budget(s.plan.budget.cost, f.invocations, f.seconds),
              extension := Some(Extension(digest, f.reason, ExtensionsOf(s.plan) + 1))))
         && t.events == [BudgetExtended(digest), LoopResumed]
    else
      && t.snapshot == s.(execution := resumed)
      && t.events == if f.GateEvidence? then [ControllerGateSatisfied(f.gate), LoopResumed] else [LoopResumed]
  }

  /** A paused loop resumes exactly on what ends its wait. */
  lemma ResumeExactly(s: Snapshot, f: ResumeFields)
    ensures AfterResume(s, f).Ok? <==> s.execution.state == Paused && EndsWait(s, f)
    ensures AfterResume(s, f).Ok? ==> ResumedAfter(s, f, AfterResume(s, f).value)
  {
    hide IsHex64;
  }

  /** A live loop with one active goal stops for a reason: the goal is stopped with it, and closure is local. */
  lemma StopExactly(s: Snapshot, reason: string)
    ensures AfterStop(s, reason).Ok?
            <==> && s.execution.state in {Running, Paused} && Reasoned(reason)
                 && exists g :: g in s.goals && OneActive(s.goals, g)
    ensures forall g :: g in s.goals && OneActive(s.goals, g) && AfterStop(s, reason).Ok? ==>
              var t := AfterStop(s, reason).value;
              var digest := Digest(ReasonText("loopskill-stop-reason-v1\n", reason));
              && t.snapshot == s.(
                   goals := s.goals[g := s.goals[g].(revision := s.goals[g].revision + 1, state := Halted)],
                   execution := Execution(Terminal, Some(Stopped), s.execution.revision + 1, s.execution.pauseReason,
                                          s.execution.wait, Some(digest)),
                   closure := Closure(Local, None, None, s.closure.revision + 1))
              && t.events == [GoalAdvanced(g), LoopStopped(digest)]
  {
    OnlyActive(s.goals);
    var active := Only(ActiveGoals(s.goals));
    if active.Some? { ActiveIsIn(s.goals, active.value); }
    hide OneActive, Only, ActiveGoals, IsSpace;
  }

  // Reordering -------------------------------------------------------------------------------------------------

  /** The plan has the goal, with this slice. */
  predicate Lists(p: Plan, id: Str, slice: Str)
    requires |p.ids| == |p.slices|
  {
    exists j :: 0 <= j < |p.ids| && p.ids[j] == id && p.slices[j] == slice
  }

  /** The new order lists the plan's goals once each, with their slices; up to the active one nothing moves. */
  predicate Reorders(p: Plan, ids: seq<Str>, slices: seq<Str>) {
    && |ids| == |slices| == |p.ids| == |p.slices| && NoRepeats(ids)
    && (forall i :: 0 <= i < |ids| ==> Lists(p, ids[i], slices[i]))
    && (forall i :: 0 <= i <= p.activeIndex && i < |ids| ==> ids[i] == p.ids[i])
  }

  /** The order of an adaptive plan may change as often as it allows, each time for a reason and under a new index. */
  predicate MayReorder(p: Plan, ids: seq<Str>, slices: seq<Str>, index: Str, revision: int, reason: string) {
    && p.adaptive && Reorders(p, ids, slices) && revision == p.revision + 1 < p.maxRevisions
    && Is64(index) && Reasoned(reason)
  }

  lemma PairsAreListed(p: Plan, ids: seq<Str>, slices: seq<Str>)
    requires PlanShape(p) && |ids| == |slices| == |p.ids| && NoRepeats(ids)
    requires Pairing(ids, slices) == Pairing(p.ids, p.slices)
    ensures forall i :: 0 <= i < |ids| ==> Lists(p, ids[i], slices[i])
  {
    forall i | 0 <= i < |ids| ensures Lists(p, ids[i], slices[i]) {
      PairingLookup(ids, slices, i);
      PairingKeys(p.ids, p.slices);
      var j :| 0 <= j < |p.ids| && p.ids[j] == ids[i];
      PairingLookup(p.ids, p.slices, j);
      hide Pairing, NoRepeats;
    }
  }

  lemma ListedPairs(p: Plan, ids: seq<Str>, slices: seq<Str>)
    requires PlanShape(p) && |ids| == |slices| == |p.ids| && NoRepeats(ids)
    requires forall i :: 0 <= i < |ids| ==> Lists(p, ids[i], slices[i])
    ensures Pairing(ids, slices) == Pairing(p.ids, p.slices) && Elements(ids) == Elements(p.ids)
  {
    hide Pairing, NoRepeats, Lists;
    forall i | 0 <= i < |ids| ensures ids[i] in p.ids { ListedIsIn(p, ids[i], slices[i]); }
    SameElements(p.ids, ids);
    PairingKeys(ids, slices);
    PairingKeys(p.ids, p.slices);
    var a, b := Pairing(ids, slices), Pairing(p.ids, p.slices);
    forall k ensures (k in a <==> k in b) && (k in a ==> a[k] == b[k]) {
      assert k in Elements(ids) <==> k in Elements(p.ids);
      if k in a {
        var i :| 0 <= i < |ids| && ids[i] == k;
        PairingLookup(ids, slices, i);
        ListedIsPaired(p, ids[i], slices[i]);
      }
    }
  }

  lemma ListedIsIn(p: Plan, id: Str, slice: Str)
    requires |p.ids| == |p.slices| && Lists(p, id, slice)
    ensures id in p.ids
  {
  }

  lemma ListedIsPaired(p: Plan, id: Str, slice: Str)
    requires PlanShape(p) && Lists(p, id, slice)
    ensures id in Pairing(p.ids, p.slices) && Pairing(p.ids, p.slices)[id] == slice
  {
    hide Pairing, NoRepeats;
    var j :| 0 <= j < |p.ids| && p.ids[j] == id && p.slices[j] == slice;
    PairingLookup(p.ids, p.slices, j);
  }

  lemma SameElements(listed: seq<Str>, ids: seq<Str>)
    requires |ids| == |listed| && NoRepeats(ids) && forall i :: 0 <= i < |ids| ==> ids[i] in listed
    ensures Elements(ids) == Elements(listed)
  {
    NoRepeatsMeansDistinct(ids);
    assert Elements(ids) == set i | 0 <= i < |ids| :: ids[i];
    ElementsSize(listed);
    forall k | k in Elements(ids) ensures k in Elements(listed) {
      var i :| 0 <= i < |ids| && ids[i] == k;
      assert k in listed;
    }
    SubsetOfSize(Elements(ids), Elements(listed));
  }

  /** A revision is accepted exactly if it reorders what is still ahead of an adaptive plan; it changes the order and
      nothing else, goals included. */
  lemma ReviseExactly(s: Snapshot, ids: seq<Str>, slices: seq<Str>, index: Str, revision: int, reason: string)
    requires SnapshotPlanInv(s)
    ensures AfterRevise(s, ids, slices, index, revision, reason).Ok?
            <==> MayReorder(s.plan, ids, slices, index, revision, reason)
    ensures AfterRevise(s, ids, slices, index, revision, reason).Ok? ==>
              var t := AfterRevise(s, ids, slices, index, revision, reason).value;
              && s.plan.revision + 1 == revision
              && t.snapshot == s.(plan := s.plan.(ids := ids, slices := slices, indexDigest := index, revision := revision))
              && t.events == [RoadmapRevised(revision)]
  {
    ShapeIsIntact(s);
    RevisionExactly(s.plan, ids, slices, index, revision, reason);
    hide SnapshotPlanInv, ValidRevision, MayReorder, Reordered;
    if AfterRevise(s, ids, slices, index, revision, reason).Ok? {
      ReviseKeepsPlan(s, ids, slices, index, revision, reason, AfterRevise(s, ids, slices, index, revision, reason).value);
      RevisionIsNext(s.plan, ids, slices, index, revision, reason);
    }
  }

  lemma ShapeIsIntact(s: Snapshot)
    requires SnapshotPlanInv(s)
    ensures PlanShape(s.plan)
  {
    hide NoRepeats, GoalAt;
  }

  lemma RevisionExactly(p: Plan, ids: seq<Str>, slices: seq<Str>, index: Str, revision: int, reason: string)
    requires PlanShape(p)
    ensures p.adaptive && ValidRevision(p, ids, slices, index, revision, reason)
            <==> MayReorder(p, ids, slices, index, revision, reason)
  {
    hide Is64, IsSpace, Pairing, Lists, NoRepeats, Distinct, Elements;
    if |ids| == |slices| == |p.ids| {
      if Distinct(ids) { DistinctMeansNoRepeats(ids); }
      if NoRepeats(ids) {
        NoRepeatsMeansDistinct(ids);
        if Pairing(ids, slices) == Pairing(p.ids, p.slices) { PairsAreListed(p, ids, slices); }
        if Reorders(p, ids, slices) {
          ListedPairs(p, ids, slices);
          StartIsKept(p, ids, slices);
        }
      }
    }
  }

  lemma StartIsKept(p: Plan, ids: seq<Str>, slices: seq<Str>)
    requires PlanShape(p) && Reorders(p, ids, slices)
    ensures ids[..p.activeIndex + 1] == p.ids[..p.activeIndex + 1]
    ensures slices[..p.activeIndex + 1] == p.slices[..p.activeIndex + 1]
  {
    hide Lists, NoRepeats, Pairing;
    forall i | 0 <= i <= p.activeIndex ensures slices[i] == p.slices[i] {
      ListedIsPaired(p, ids[i], slices[i]);
      PairingLookup(p.ids, p.slices, i);
    }
  }
}
