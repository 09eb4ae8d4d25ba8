/** A concrete run in which the kernel schedules a third repair of a goal that allows one attempt: no plan-selector grant
    covers it, and the codec has no such chain. */
module RepairWitness {
  import opened Base
  import opened Records
  import opened Commands
  import opened Authority
  import opened Kernel
  import opened Transitions
  import opened PlanProgress
  import opened Invariant
  import opened Runs
  import opened Counterexamples
  import opened RepairSchedule
  import PlanIndexes

  const GOAL := Text("g000")
  const HOME := ChainFor(GOAL)
  const REPAIR_COMMAND := Cmd(ResultRef, RESULT, 4, map[NewReview := HOME.reviewRef], map[], None, Judge(RepairVerdict))

  /** At most so many records of each kind. */
  predicate Sized(s: Snapshot, n: nat) {
    && |s.goals| <= n && |s.effects| <= n && |s.attempts| <= n && |s.hosts| <= n && |s.results| <= n && |s.reports| <= n
    && |s.artifacts| <= n && |s.reviews| <= n && |s.finalizations| <= n && |s.plan.ids| <= n && |s.plan.slices| <= n
  }

  /** The reducer's decision about a command on known references is committed, while there are not too many records. */
  lemma SizedCommits(s: Snapshot, c: Command, d: Reduced)
    requires Addressed(s, c) && Dispatch(s, c.request, Ctx(GOAL)) == Ok(d) && |d.events| <= 16 && Sized(d.snapshot, 128)
    ensures Commit(Some(s), Input(c, Ctx(GOAL))) == Ok(Renumbered(d, c.request.expectedRevision + 1))
  {
    hide Dispatch, Reduce, BindingsKnown, InCollection, Commit, Issued, Ctx;
    if c.request.kind == LoopRef { DispatchedOnLoop(s, GOAL, c, d); } else { Dispatched(s, GOAL, c, d); }
    CommitsAs(Some(s), Input(c, Ctx(GOAL)), Renumbered(d, c.request.expectedRevision + 1));
  }

  /** The failures differ, so that none counts as the same twice. */
  function FailureName(n: nat): string { if n == 1 then "first" else if n == 2 then "second" else "third" }

  /** The first goal is active and its review asks for a repair; `n` repairs have been authorised. */
  predicate Repairing(s: Snapshot, n: nat) {
    && s.loopRef == LOOP && s.plan == InitialPlan(Payload1([GOAL]), HOME.goalRef)
    && s.goals == map[HOME.goalRef := InitialGoal(Payload1([GOAL]), HOME)]
    && s.effects.Keys == {HOME.effectRef} && s.attempts.Keys == {HOME.attemptRef}
    && HOME.reviewRef in s.reviews && s.reviews[HOME.reviewRef].verdict == RepairVerdict
    && Sized(s, 2) && CountedFor(s.policy, HOME.goalRef) == n
    && (if n == 0 then s.policy == None
        else s.policy.Some? && s.policy.value.goalRef == Some(HOME.goalRef)
             && s.policy.value.lastFailure == Some(Digest(Fingerprint(FailureName(n)))))
  }

  lemma ReviewReduces(s: Snapshot)
    requires Evidenced(s, [GOAL]) && Few(s, [GOAL], RESULT)
    ensures var t := AfterReview(s, REPAIR_COMMAND.request, RepairVerdict);
            t.Ok? && Repairing(t.value.snapshot, 0) && |t.value.events| == 1
  {
    hide ResultChain, InitialGoal, InitialPlan, Payload1, GoalChain;
    EvidenceStands(s, [GOAL]);
    ChainResolves(s, [GOAL]);
    FewIsSized(s);
  }

  lemma FewIsSized(s: Snapshot)
    requires Few(s, [GOAL], RESULT)
    ensures Sized(s, 2)
  {
    var c := HOME;
    AtMostPair(s.goals.Keys, c.goalRef, c.goalRef);
    AtMostPair(s.effects.Keys, c.effectRef, c.effectRef);
    AtMostPair(s.attempts.Keys, c.attemptRef, c.attemptRef);
    AtMostPair(s.hosts.Keys, c.hostRef, c.hostRef);
    AtMostPair(s.results.Keys, RESULT, RESULT);
    AtMostPair(s.reports.Keys, REPORT, REPORT);
    AtMostPair(s.artifacts.Keys, ARTIFACT, ARTIFACT);
    AtMostPair(s.reviews.Keys, REVIEW, REVIEW);
    AtMostPair(s.finalizations.Keys, FINAL, FINAL);
    assert |s.goals| == |s.goals.Keys| && |s.effects| == |s.effects.Keys| && |s.attempts| == |s.attempts.Keys|;
    assert |s.hosts| == |s.hosts.Keys| && |s.results| == |s.results.Keys| && |s.reports| == |s.reports.Keys|;
    assert |s.artifacts| == |s.artifacts.Keys| && |s.reviews| == |s.reviews.Keys|;
    assert |s.finalizations| == |s.finalizations.Keys|;
  }

  /** The answers of a human to what the snapshot shows. */
  function Answers(s: Snapshot): map<Field, Str> {
    map[ContextDigest := Digest(HumanContext(PolicyContextOf(s, Ctx(GOAL).latest))), DecisionCard := Text("card"),
        RepairBudget := Num(3), SameFailureBudget := Num(2)]
  }

  function Identity(n: nat): RepairIdentity { RepairIdentity(LOOP, D, HOME.goalRef, GOAL, n) }

  /** Authorises a repair without scheduling it. */
  function AuthorizeCommand(s: Snapshot, n: nat): Command {
    Cmd(LoopRef, LOOP, 4 + n, map[], Answers(s), None, Decide(ContinueRepair, FailureName(n)))
  }

  function ScheduleCommand(s: Snapshot, n: nat): Command {
    var chain := RepairChain(Identity(n));
    Cmd(LoopRef, LOOP, 4 + n, RepairAllocation(chain),
        Answers(s)[BaselineBlob := D][ArtifactProfile := Text("non_git")][WorkspaceIdentity := D][RequestDigest := D]
               [TargetRef := chain.hostRef], None, Decide(ContinueRepair, FailureName(n)))
  }

  lemma RepairingIsActive(s: Snapshot, n: nat)
    requires Repairing(s, n)
    ensures Only(ActiveGoals(s.goals)) == Some(HOME.goalRef)
  {
    assert ActiveGoals(s.goals) == {HOME.goalRef};
    OnlyOne(HOME.goalRef);
  }

  /** The decision is about the current context, and reaches the repair branch. */
  lemma DecisionContinues(s: Snapshot, r: Request, n: nat)
    requires ContextDigest in r.resolved && DecisionCard in r.resolved
    requires r.resolved[ContextDigest] == Digest(HumanContext(PolicyContextOf(s, Ctx(GOAL).latest)))
    requires r.resolved[DecisionCard] == Text("card")
    ensures var prior := if s.policy.Some? then s.policy.value else INITIAL_POLICY;
            AfterDecision(s, r, Ctx(GOAL), ContinueRepair, FailureName(n))
            == AfterContinueRepair(s, r, prior, FailureName(n), Text("card"))
  {
    hide PolicyContextOf, AfterContinueRepair, Ctx;
  }

  /** The budgets allow a repair, so it is authorised. */
  lemma RepairIsAuthorized(s: Snapshot, r: Request, n: nat)
    requires 1 <= n <= 3 && Repairing(s, n - 1)
    requires RepairBudget in r.resolved && r.resolved[RepairBudget] == Num(3)
    requires SameFailureBudget in r.resolved && r.resolved[SameFailureBudget] == Num(2)
    ensures var prior := if s.policy.Some? then s.policy.value else INITIAL_POLICY;
            AfterContinueRepair(s, r, prior, FailureName(n), Text("card"))
            == AfterAuthorizedRepair(s, r, HOME.goalRef, CountersFor(prior, HOME.goalRef), Text("card"),
                                     Digest(Fingerprint(FailureName(n))))
    ensures var prior := if s.policy.Some? then s.policy.value else INITIAL_POLICY;
            CountersFor(prior, HOME.goalRef).repairAttempts == n - 1
            && CountersFor(prior, HOME.goalRef).goalRef == Some(HOME.goalRef)
  {
    hide Only, ActiveGoals, Sized, InitialPlan, Payload1, AfterAuthorizedRepair, GoalChain;
    RepairingIsActive(s, n - 1);
    assert FailureName(n)[0] != FailureName(n - 1)[0];
    assert RepairWanted(s, s.goals[HOME.goalRef], FailureName(n)) by { hide RecordRepair; }
    assert RepairBudgets(r.resolved) == Ok((3, 2));
  }

  lemma AuthorizeReduces(s: Snapshot, n: nat)
    requires 1 <= n <= 2 && Repairing(s, n - 1)
    ensures var t := AfterDecision(s, AuthorizeCommand(s, n).request, Ctx(GOAL), ContinueRepair, FailureName(n));
            t.Ok? && Repairing(t.value.snapshot, n) && |t.value.events| == 2
  {
    hide PolicyContextOf, InitialGoal, InitialPlan, Payload1, GoalChain, Sized, AfterDecision, AfterContinueRepair,
         CountersFor, Ctx, ScheduleRepair, Repairing;
    var r := AuthorizeCommand(s, n).request;
    DecisionContinues(s, r, n);
    RepairIsAuthorized(s, r, n);
    PolicyIsRepairing(s, AfterDecision(s, r, Ctx(GOAL), ContinueRepair, FailureName(n)).value.snapshot.policy.value, n);
  }

  lemma PolicyIsRepairing(s: Snapshot, policy: Policy, n: nat)
    requires 1 <= n && Repairing(s, n - 1) && policy.goalRef == Some(HOME.goalRef) && policy.repairAttempts == n
    requires policy.lastFailure == Some(Digest(Fingerprint(FailureName(n))))
    ensures Repairing(s.(policy := Some(policy)), n)
  {
    hide InitialGoal, InitialPlan, Payload1, GoalChain;
  }

  lemma SizedPolicy(s: Snapshot, n: nat, policy: Option<Policy>)
    requires Sized(s, n)
    ensures Sized(s.(policy := policy), n)
  {
  }

  lemma ThirdIsMaterialised(s: Snapshot)
    requires Repairing(s, 2)
    ensures MaterializesRepair(s, ScheduleCommand(s, 3).request, RepairChain(Identity(3)))
  {
    hide PolicyContextOf, Ctx, Sized, InitialGoal;
  }

  lemma ThirdIsAllocated(s: Snapshot)
    requires Repairing(s, 2)
    ensures HOME.goalRef in s.goals
    ensures RepairIdentity(s.loopRef, s.plan.planDigest, HOME.goalRef, s.goals[HOME.goalRef].goalId, 3) == Identity(3)
    ensures ScheduleCommand(s, 3).request.allocate == RepairAllocation(RepairChain(Identity(3))) != map[]
  {
    hide PolicyContextOf, Ctx, Sized, Answers;
    assert NewAttempt in RepairAllocation(RepairChain(Identity(3)));
  }

  /** The chain of the third repair, and everything it needs, is in the command. */
  lemma ThirdIsScheduled(s: Snapshot)
    requires Repairing(s, 2)
    ensures HOME.goalRef in s.goals
    ensures var t := ScheduleRepair(s, ScheduleCommand(s, 3).request, HOME.goalRef, 3);
            t.Ok? && Sized(t.value.0, 3)
  {
    hide ScheduleCommand, RepairAllocation, RepairChain, MaterializesRepair, InitialGoal, InitialPlan, Payload1, GoalChain,
         Identity;
    ThirdIsAllocated(s);
    ThirdIsMaterialised(s);
    assert BASELINE_FIELDS <= ScheduleCommand(s, 3).request.resolved.Keys
           && RequestDigest in ScheduleCommand(s, 3).request.resolved by { ThirdIsResolved(s); }
    hide Repairing;
  }

  lemma ThirdIsResolved(s: Snapshot)
    ensures BASELINE_FIELDS + {RequestDigest} <= ScheduleCommand(s, 3).request.resolved.Keys
  {
    hide PolicyContextOf, Ctx;
  }

  lemma ScheduleReduces(s: Snapshot)
    requires Repairing(s, 2)
    ensures var t := AfterDecision(s, ScheduleCommand(s, 3).request, Ctx(GOAL), ContinueRepair, FailureName(3));
            t.Ok? && Sized(t.value.snapshot, 3) && |t.value.events| == 3 && t.value.events[2].RepairAttemptScheduled?
  {
    hide PolicyContextOf, InitialGoal, InitialPlan, Payload1, GoalChain, AfterDecision, AfterContinueRepair,
         CountersFor, Ctx, ScheduleRepair, RepairChain, RepairAllocation, RecordRepair, Sized, Repairing, ScheduleCommand;
    var r := ScheduleCommand(s, 3).request;
    ThirdIsAnswered(s);
    DecisionContinues(s, r, 3);
    RepairIsAuthorized(s, r, 3);
    ThirdIsScheduled(s);
    ThirdIsAllocated(s);
    var t := AfterDecision(s, r, Ctx(GOAL), ContinueRepair, FailureName(3)).value.snapshot;
    SizedPolicy(ScheduleRepair(s, r, HOME.goalRef, 3).value.0, 3, t.policy);
  }

  lemma ThirdIsAnswered(s: Snapshot)
    ensures var resolved := ScheduleCommand(s, 3).request.resolved;
            && ContextDigest in resolved && DecisionCard in resolved && RepairBudget in resolved
            && SameFailureBudget in resolved && resolved[DecisionCard] == Text("card")
            && resolved[ContextDigest] == Digest(HumanContext(PolicyContextOf(s, Ctx(GOAL).latest)))
            && resolved[RepairBudget] == Num(3) && resolved[SameFailureBudget] == Num(2)
  {
    hide PolicyContextOf, Ctx;
  }

  // The run ----------------------------------------------------------------------------------------------------

  lemma SizedFits(s: Snapshot, n: nat)
    requires Sized(s, n) && n <= 128
    ensures Sized(s, 128)
  {
  }

  lemma RepairingRenumbered(d: Reduced, revision: nat, n: nat)
    requires Repairing(d.snapshot, n)
    ensures Repairing(Renumbered(d, revision).snapshot, n)
  {
    hide InitialGoal, InitialPlan, Payload1, GoalChain;
  }

  lemma ReviewCommits(s: Snapshot) returns (t: Reduced)
    requires Evidenced(s, [GOAL]) && Few(s, [GOAL], RESULT)
    ensures Commit(Some(s), Input(REPAIR_COMMAND, Ctx(GOAL))) == Ok(t) && Repairing(t.snapshot, 0)
  {
    hide AfterReview, Commit, Ctx, Addressed, Repairing, Few, Sized;
    ReviewReduces(s);
    var d := AfterReview(s, REPAIR_COMMAND.request, RepairVerdict).value;
    ReviewIsKnown(s);
    RepairingIsSized(d.snapshot, 0);
    hide Evidenced;
    SizedCommits(s, REPAIR_COMMAND, d);
    RepairingRenumbered(d, 5, 0);
    t := Renumbered(d, 5);
  }

  lemma RepairingIsSized(s: Snapshot, n: nat)
    requires Repairing(s, n)
    ensures Sized(s, 128)
  {
    hide InitialGoal, InitialPlan, GoalChain;
  }

  lemma ReviewIsKnown(s: Snapshot)
    requires Evidenced(s, [GOAL])
    ensures Addressed(s, REPAIR_COMMAND)
  {
    hide Begun;
  }

  lemma AuthorizeIsKnown(s: Snapshot, n: nat)
    ensures Addressed(s, AuthorizeCommand(s, n))
  {
    hide PolicyContextOf, Ctx;
  }

  lemma ScheduleIsKnown(s: Snapshot)
    ensures Addressed(s, ScheduleCommand(s, 3))
  {
    hide PolicyContextOf, Ctx;
  }

  lemma AuthorizeCommits(s: Snapshot, n: nat) returns (t: Reduced)
    requires 1 <= n <= 2 && Repairing(s, n - 1)
    ensures Commit(Some(s), Input(AuthorizeCommand(s, n), Ctx(GOAL))) == Ok(t) && Repairing(t.snapshot, n)
  {
    hide AfterDecision, Commit, Ctx, Addressed, Repairing, Sized, Answers;
    AuthorizeReduces(s, n);
    var c := AuthorizeCommand(s, n);
    var d := AfterDecision(s, c.request, Ctx(GOAL), ContinueRepair, FailureName(n)).value;
    AuthorizeIsKnown(s, n);
    RepairingIsSized(d.snapshot, n);
    SizedCommits(s, c, d);
    RepairingRenumbered(d, c.request.expectedRevision + 1, n);
    t := Renumbered(d, c.request.expectedRevision + 1);
  }

  lemma ScheduleCommits(s: Snapshot) returns (t: Reduced)
    requires Repairing(s, 2)
    ensures Commit(Some(s), Input(ScheduleCommand(s, 3), Ctx(GOAL))) == Ok(t) && Schedules(t.events)
  {
    hide AfterDecision, Commit, Ctx, Addressed, Repairing, Sized, Answers, RepairAllocation, RepairChain;
    ScheduleReduces(s);
    var c := ScheduleCommand(s, 3);
    var d := AfterDecision(s, c.request, Ctx(GOAL), ContinueRepair, FailureName(3)).value;
    ScheduleIsKnown(s);
    SizedFits(d.snapshot, 3);
    SizedCommits(s, c, d);
    t := Renumbered(d, c.request.expectedRevision + 1);
    assert t.events[2].RepairAttemptScheduled?;
  }

  lemma SevenSteps() returns (run: seq<Input>, s: Snapshot)
    ensures |run| == 7 && After(run) == Some(s) && Repairing(s, 2)
  {
    hide Commit, Few, Ctx, Begun, Seen, Repairing, AuthorizeCommand;
    var seen;
    run, seen, s := ThreeSteps([GOAL], RESULT);
    var t := AcknowledgeCommits(s, [GOAL]);
    hide StagedOne, Evidenced;
    RunGrows(run, Input(ACKNOWLEDGE_COMMAND, Ctx(GOAL)), t);
    run := run + [Input(ACKNOWLEDGE_COMMAND, Ctx(GOAL))];
    var u := ReviewCommits(t.snapshot);
    RunGrows(run, Input(REPAIR_COMMAND, Ctx(GOAL)), u);
    run := run + [Input(REPAIR_COMMAND, Ctx(GOAL))];
    var v := AuthorizeCommits(u.snapshot, 1);
    RunGrows(run, Input(AuthorizeCommand(u.snapshot, 1), Ctx(GOAL)), v);
    run := run + [Input(AuthorizeCommand(u.snapshot, 1), Ctx(GOAL))];
    var w := AuthorizeCommits(v.snapshot, 2);
    RunGrows(run, Input(AuthorizeCommand(v.snapshot, 2), Ctx(GOAL)), w);
    run, s := run + [Input(AuthorizeCommand(v.snapshot, 2), Ctx(GOAL))], w.snapshot;
  }

  /** The kernel schedules a third repair of a goal whose attempt limit is one: the chain lies outside every plan
      selector, and the codec knows no chain of that ordinal. */
  lemma ThirdRepairIsScheduled() returns (run: seq<Input>, s: Snapshot, i: Input, t: Reduced)
    ensures |run| == 7 && After(run) == Some(s) && Commit(Some(s), i) == Ok(t) && Schedules(t.events)
    ensures var g := s.plan.activeGoalRef;
            && g in s.goals && s.goals[g].maxAttempts == 1 && NextOrdinal(s, g) == 3 && s.plan.capacity == CapacityV2
            && PlanIndexes.CodecRepairChain(s.loopRef, s.plan.planDigest, g, s.goals[g].goalId, 3) == None
            && RepairRef(AttemptRef, ScheduledIdentity(s)) !in Envelope(t.snapshot, AttemptRef)
  {
    hide Commit, Ctx, Repairing, Schedules, Envelope, ScheduledIdentity;
    run, s := SevenSteps();
    t := ScheduleCommits(s);
    i := Input(ScheduleCommand(s, 3), Ctx(GOAL));
    RepairingLimits(s);
    ScheduledIsCovered(run, s, i, t, AttemptRef);
  }

  lemma RepairingLimits(s: Snapshot)
    requires Repairing(s, 2)
    ensures var g := s.plan.activeGoalRef;
            g in s.goals && s.goals[g].maxAttempts == 1 && NextOrdinal(s, g) == 3 && s.plan.capacity == CapacityV2
  {
    hide GoalChain;
  }
}
